/** The tunnel's counters: TCP connections and UDP sessions move the same ConnsActive and
    ConnsTotal, the accept loop also counts TCPAccepts, and all of them interleave. */
module TunnelCounts {
  import opened Text
  import opened Counting
  import Tcp = Admission
  import Udp = UdpSessions
  import UdpTheorems

  /** `active`, `total` and `accepts` are the server's ConnsActive, ConnsTotal and TCPAccepts;
      `marked` says that the accept loop has counted its connection in TCPAccepts. */
  datatype Tunnel = Tunnel(
    tcp: Tcp.System, marked: bool, udp: Udp.World, active: int, total: nat, accepts: nat)

  datatype Event =
    | OnTcp(tcp: Tcp.Event)
    | CountAccept
    | OnUdp(udp: Udp.Event)

  predicate Enabled(s: Tunnel, e: Event, t: Udp.Timing) {
    match e
    case OnTcp(a) => Tcp.Enabled(s.tcp, a) && (a.Spawn? ==> s.marked)
    case CountAccept => s.tcp.loop == Tcp.Counted && !s.marked
    case OnUdp(a) => Udp.Enabled(s.udp, a, t)
  }

  /** The counter operations each step performs. */
  function Active(s: Tunnel, e: Event, t: Udp.Timing): int
    requires Enabled(s, e, t)
  {
    match e
    case OnTcp(EnterActive) => s.active + 1
    case OnTcp(LeaveActive(_)) => s.active - 1
    case OnUdp(DialWorks) => s.active + 1
    case OnUdp(CountOut(_)) => s.active - 1
    case OnUdp(Sweep) => s.active - |Udp.Victims(s.udp)|
    case _ => s.active
  }

  function Next(s: Tunnel, e: Event, t: Udp.Timing): Tunnel
    requires Enabled(s, e, t)
  {
    var active := Active(s, e, t);
    match e
    case OnTcp(a) =>
      s.(tcp := Tcp.Next(s.tcp, a), active := active, marked := s.marked && !a.Spawn?,
         total := if a.AddTotal? then s.total + 1 else s.total)
    case CountAccept => s.(marked := true, accepts := s.accepts + 1)
    case OnUdp(a) =>
      s.(udp := Udp.Next(s.udp, a, t), active := active, total := if a.CountTotal? then s.total + 1 else s.total)
  }

  function Start(cap: nat): Tunnel {
    Tunnel(Tcp.System(cap, Tcp.ZERO, Tcp.Accepting, [], 0), false, Udp.INITIAL, 0, 0, 0)
  }

  function Run(cap: nat, events: seq<Event>, t: Udp.Timing): Option<Tunnel> {
    if events == [] then Some(Start(cap))
    else
      var s := Run(cap, events[..|events| - 1], t);
      var e := events[|events| - 1];
      if s.Some? && Enabled(s.value, e, t) then Some(Next(s.value, e, t)) else None
  }

  /** Each shared counter is the TCP part and the UDP part together. */
  predicate Split(s: Tunnel) {
    && s.active == s.tcp.g.active + s.udp.share
    && s.total == s.tcp.g.total + s.udp.total
    && s.accepts == |s.tcp.handlers| + Tcp.One(s.marked)
    && (s.marked ==> s.tcp.loop == Tcp.Counted)
  }

  ghost predicate Inv(s: Tunnel, t: Udp.Timing) {
    Split(s) && Tcp.Law(s.tcp) && Udp.Sound(s.udp, t)
  }

  lemma SplitStep(s: Tunnel, e: Event, t: Udp.Timing)
    requires Split(s) && Enabled(s, e, t)
    ensures Split(Next(s, e, t))
  {
  }

  lemma InvStep(s: Tunnel, e: Event, t: Udp.Timing)
    requires Inv(s, t) && Enabled(s, e, t) && Udp.Timely(t)
    ensures Inv(Next(s, e, t), t)
  {
    SplitStep(s, e, t);
    match e
    case OnTcp(a) => Tcp.LawStep(s.tcp, a);
    case CountAccept =>
    case OnUdp(a) => Udp.SoundStep(s.udp, a, t);
  }

  lemma {:induction false} InvAlways(cap: nat, events: seq<Event>, t: Udp.Timing)
    requires Run(cap, events, t).Some? && Udp.Timely(t)
    ensures Inv(Run(cap, events, t).value, t)
  {
    if events == [] {
    } else {
      InvAlways(cap, events[..|events| - 1], t);
      InvStep(Run(cap, events[..|events| - 1], t).value, events[|events| - 1], t);
    }
  }

  /** On every run and any timing: accepted TCP connections are rejected, counted in TCPAccepts or
      in the accept loop's hands; ConnsTotal counts the handlers started and the sessions built,
      but for one of each between two steps; and the tokens are the serving handlers, within
      capacity. */
  lemma TotalsLaw(cap: nat, events: seq<Event>, t: Udp.Timing)
    requires Run(cap, events, t).Some? && Udp.Timely(t)
    ensures var s := Run(cap, events, t).value;
            && s.tcp.accepted == s.tcp.g.rejected + s.accepts + Tcp.One(s.tcp.loop != Tcp.Accepting && !s.marked)
            && s.total == |s.tcp.handlers| + Tcp.One(s.tcp.loop == Tcp.Counted)
                          + |s.udp.objs| + Tcp.One(s.udp.dispatcher.Building?)
            && s.tcp.g.tokens == Count(s.tcp.handlers, Tcp.IsServing) + Tcp.One(Tcp.HoldsToken(s.tcp.loop))
            && s.tcp.g.tokens <= s.tcp.cap
  {
    InvAlways(cap, events, t);
  }

  /** ConnsActive is the tokens, the handlers released but not left, less a connection not yet
      entered; and the UDP table, the sessions removed but not counted out, and one that the
      dispatcher counted in but has not inserted. */
  predicate ActiveLaw(s: Tunnel) {
    s.active == s.tcp.g.tokens + Count(s.tcp.handlers, Tcp.IsReleased) - Tcp.One(s.tcp.loop == Tcp.Admitted)
                + |s.udp.sessions| + Count(s.udp.objs, Udp.IsRemoved)
                + Tcp.One(Udp.Between(s.udp.dispatcher))
  }

  ghost predicate AlwaysActiveLaw(cap: nat, t: Udp.Timing) {
    forall events :: Run(cap, events, t).Some? ==> ActiveLaw(Run(cap, events, t).value)
  }

  lemma {:induction false} UdpRuns(cap: nat, events: seq<Event>, t: Udp.Timing)
    requires Run(cap, events, t).Some?
    ensures UdpTheorems.Reachable(Run(cap, events, t).value.udp, t)
  {
    if events == [] {
      var none: seq<Udp.Event> := [];
      assert Udp.Run(none, t) == Some(Udp.INITIAL);
    } else {
      UdpRuns(cap, events[..|events| - 1], t);
      var s, e := Run(cap, events[..|events| - 1], t).value, events[|events| - 1];
      if e.OnUdp? {
        UdpTheorems.ReachNext(s.udp, e.udp, t);
      }
    }
  }

  /** UDP traffic alone is a run of the tunnel. */
  lemma {:induction false} UdpOnly(cap: nat, events: seq<Udp.Event>, t: Udp.Timing) returns (all: seq<Event>)
    requires Udp.Run(events, t).Some?
    ensures Run(cap, all, t).Some?
    ensures var s := Run(cap, all, t).value;
            s.udp == Udp.Run(events, t).value && s.tcp == Start(cap).tcp && s.active == s.udp.share
  {
    if events == [] {
      all := [];
    } else {
      var before := UdpOnly(cap, events[..|events| - 1], t);
      var e := OnUdp(events[|events| - 1]);
      all := before + [e];
      assert all[..|all| - 1] == before;
    }
  }

  /** The law of the active count holds on every run of the tunnel exactly when the UDP readers
      are prompt: rearming and being late together take at most a minute. */
  lemma ActiveLawExactly(cap: nat, t: Udp.Timing)
    requires Udp.Timely(t)
    ensures AlwaysActiveLaw(cap, t) <==> t.rearm + t.late <= 60.0
  {
    if t.rearm + t.late <= 60.0 {
      forall events | Run(cap, events, t).Some? ensures ActiveLaw(Run(cap, events, t).value) {
        InvAlways(cap, events, t);
        UdpRuns(cap, events, t);
        UdpTheorems.ReachableIsInv(Run(cap, events, t).value.udp, t);
      }
    } else {
      var w := UdpTheorems.CountedTwice(t);
      var events :| Udp.Run(events, t) == Some(w);
      var all := UdpOnly(cap, events, t);
      assert w.objs[..0] == [] && Count(w.objs, Udp.IsRemoved) == 0;
      assert !ActiveLaw(Run(cap, all, t).value);
    }
  }
}
