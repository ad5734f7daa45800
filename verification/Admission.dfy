/** Admission control: one accept loop, a counting semaphore, and handlers that give their
    token back before they leave the active count.  Each semaphore or counter operation is one
    atomic step, and accept loop and handlers interleave freely. */
module Admission {
  import opened Text
  import opened Counting

  /** The semaphore channel and the atomic counters. */
  datatype Gauges = Gauges(tokens: nat, active: int, total: nat, rejected: nat)

  const ZERO := Gauges(0, 0, 0, 0)

  function Acquire(g: Gauges): Gauges { g.(tokens := g.tokens + 1) }
  function Reject(g: Gauges): Gauges { g.(rejected := g.rejected + 1) }
  function Enter(g: Gauges): Gauges { g.(active := g.active + 1) }
  function CountTotal(g: Gauges): Gauges { g.(total := g.total + 1) }
  function Leave(g: Gauges): Gauges { g.(active := g.active - 1) }

  function Release(g: Gauges): Gauges
    requires 0 < g.tokens
  {
    g.(tokens := g.tokens - 1)
  }

  class Server {
    const maxConns: nat
    var tokens: nat
    var active: int
    var total: nat
    var rejected: nat

    function State(): Gauges
      reads this
    {
      Gauges(tokens, active, total, rejected)
    }

    constructor (maxConns: nat)
      ensures State() == ZERO && this.maxConns == maxConns
    {
      this.maxConns := maxConns;
      tokens, active, total, rejected := 0, 0, 0, 0;
    }

    /** The select on the semaphore in the accept loop: never blocks. */
    method TryAcquire() returns (admitted: bool)
      modifies this`tokens
      ensures admitted <==> old(tokens) < maxConns
      ensures State() == if admitted then Acquire(old(State())) else old(State())
    {
      admitted := tokens < maxConns;
      if admitted {
        tokens := tokens + 1;
      }
    }

    method EnterActive()
      modifies this`active
      ensures State() == Enter(old(State()))
    {
      active := active + 1;
    }

    method AddTotal()
      modifies this`total
      ensures State() == CountTotal(old(State()))
    {
      total := total + 1;
    }

    method CountRejected()
      modifies this`rejected
      ensures State() == Reject(old(State()))
    {
      rejected := rejected + 1;
    }

    /** The receive from the semaphore at a handler's end. */
    method GiveBack()
      requires 0 < tokens
      modifies this`tokens
      ensures State() == Release(old(State()))
    {
      tokens := tokens - 1;
    }

    method LeaveActive()
      modifies this`active
      ensures State() == Leave(old(State()))
    {
      active := active - 1;
    }
  }

  // ---- The interleaved system ----

  datatype Loop = Accepting | Trying | Refusing | Admitted | Entered | Counted

  datatype Handler = Serving | Released | Ended

  datatype System = System(cap: nat, g: Gauges, loop: Loop, handlers: seq<Handler>, accepted: nat)

  datatype Event =
    | AcceptConn
    | TryToken
    | Refuse
    | EnterActive
    | AddTotal
    | Spawn
    | GiveBack(h: nat)
    | LeaveActive(h: nat)

  predicate Enabled(s: System, e: Event) {
    match e
    case AcceptConn => s.loop == Accepting
    case TryToken => s.loop == Trying
    case Refuse => s.loop == Refusing
    case EnterActive => s.loop == Admitted
    case AddTotal => s.loop == Entered
    case Spawn => s.loop == Counted
    case GiveBack(h) => h < |s.handlers| && s.handlers[h] == Serving && 0 < s.g.tokens
    case LeaveActive(h) => h < |s.handlers| && s.handlers[h] == Released
  }

  function Next(s: System, e: Event): System
    requires Enabled(s, e)
  {
    match e
    case AcceptConn => s.(loop := Trying, accepted := s.accepted + 1)
    case TryToken => if s.g.tokens < s.cap then s.(loop := Admitted, g := Acquire(s.g)) else s.(loop := Refusing)
    case Refuse => s.(loop := Accepting, g := Reject(s.g))
    case EnterActive => s.(loop := Entered, g := Enter(s.g))
    case AddTotal => s.(loop := Counted, g := CountTotal(s.g))
    case Spawn => s.(loop := Accepting, handlers := s.handlers + [Serving])
    case GiveBack(h) => s.(handlers := s.handlers[h := Released], g := Release(s.g))
    case LeaveActive(h) => s.(handlers := s.handlers[h := Ended], g := Leave(s.g))
  }

  function Run(cap: nat, events: seq<Event>): Option<System> {
    if events == [] then Some(System(cap, ZERO, Accepting, [], 0))
    else
      var s := Run(cap, events[..|events| - 1]);
      if s.Some? && Enabled(s.value, events[|events| - 1]) then Some(Next(s.value, events[|events| - 1])) else None
  }

  // ---- The server object against the transition system ----

  /** One step carried out on the server; the accept loop goes by what the semaphore answers. */
  method Perform(server: Server, s: System, e: Event) returns (loop: Loop)
    requires server.maxConns == s.cap && server.State() == s.g && Enabled(s, e)
    modifies server
    ensures server.State() == Next(s, e).g && loop == Next(s, e).loop
  {
    loop := s.loop;
    match e
    case AcceptConn => loop := Trying;
    case TryToken =>
      var admitted := server.TryAcquire();
      loop := if admitted then Admitted else Refusing;
    case Refuse =>
      server.CountRejected();
      loop := Accepting;
    case EnterActive =>
      server.EnterActive();
      loop := Entered;
    case AddTotal =>
      server.AddTotal();
      loop := Counted;
    case Spawn => loop := Accepting;
    case GiveBack(_) => server.GiveBack();
    case LeaveActive(_) => server.LeaveActive();
  }

  /** On every run the semaphore and the counters are those of the transition system. */
  method Replay(cap: nat, events: seq<Event>) returns (server: Server)
    requires Run(cap, events).Some?
    ensures fresh(server) && server.maxConns == cap && server.State() == Run(cap, events).value.g
  {
    if events == [] {
      server := new Server(cap);
    } else {
      var before := events[..|events| - 1];
      server := Replay(cap, before);
      CapStands(cap, before);
      var _ := Perform(server, Run(cap, before).value, events[|events| - 1]);
    }
  }

  lemma {:induction false} CapStands(cap: nat, events: seq<Event>)
    requires Run(cap, events).Some?
    ensures Run(cap, events).value.cap == cap
  {
    if events == [] {
    } else {
      CapStands(cap, events[..|events| - 1]);
    }
  }

  // ---- The law ----

  predicate IsServing(h: Handler) { h == Serving }
  predicate IsReleased(h: Handler) { h == Released }

  /** Whether the accept loop holds a token for a connection it has not spawned yet. */
  predicate HoldsToken(l: Loop) {
    l == Admitted || l == Entered || l == Counted
  }

  function One(b: bool): nat {
    if b then 1 else 0
  }

  /** Tokens are the handlers between acquire and release, at most `cap`; every connection is
      rejected, counted or in the loop's hands; and the active count differs from the tokens by
      the handlers in their last two steps and a connection not yet entered. */
  predicate Law(s: System) {
    && s.g.tokens == Count(s.handlers, IsServing) + One(HoldsToken(s.loop))
    && s.g.tokens <= s.cap
    && s.accepted == s.g.rejected + s.g.total + One(s.loop in {Trying, Refusing, Admitted, Entered})
    && s.g.total == |s.handlers| + One(s.loop == Counted)
    && s.g.active - s.g.tokens == Count(s.handlers, IsReleased) - One(s.loop == Admitted)
  }

  lemma LawStep(s: System, e: Event)
    requires Law(s) && Enabled(s, e)
    ensures Law(Next(s, e))
  {
    match e
    case Spawn =>
      CountAppend(s.handlers, Serving, IsServing);
      CountAppend(s.handlers, Serving, IsReleased);
    case GiveBack(h) =>
      CountUpdate(s.handlers, h, Released, IsServing);
      CountUpdate(s.handlers, h, Released, IsReleased);
    case LeaveActive(h) =>
      CountUpdate(s.handlers, h, Ended, IsServing);
      CountUpdate(s.handlers, h, Ended, IsReleased);
    case _ =>
  }

  /** The admission law on every run. */
  lemma {:induction false} AdmissionLaw(cap: nat, events: seq<Event>)
    requires Run(cap, events).Some?
    ensures Law(Run(cap, events).value) && Run(cap, events).value.cap == cap
  {
    if events == [] {
    } else {
      AdmissionLaw(cap, events[..|events| - 1]);
      LawStep(Run(cap, events[..|events| - 1]).value, events[|events| - 1]);
    }
  }

  /** A handler giving its token back never blocks on an empty semaphore. */
  lemma ReleaseNeverBlocks(cap: nat, events: seq<Event>, h: nat)
    requires Run(cap, events).Some?
    requires h < |Run(cap, events).value.handlers| && Run(cap, events).value.handlers[h] == Serving
    ensures Enabled(Run(cap, events).value, GiveBack(h))
  {
    AdmissionLaw(cap, events);
    CountPositive(Run(cap, events).value.handlers, h, IsServing);
  }

  /** Once all handlers have ended and the loop is back at accept, the gauges are back to rest. */
  lemma QuietServer(cap: nat, events: seq<Event>)
    requires Run(cap, events).Some?
    requires var s := Run(cap, events).value;
             s.loop == Accepting && forall i :: 0 <= i < |s.handlers| ==> s.handlers[i] == Ended
    ensures var s := Run(cap, events).value;
            s.g.tokens == 0 && s.g.active == 0 && s.accepted == s.g.total + s.g.rejected
  {
    AdmissionLaw(cap, events);
    AllEnded(Run(cap, events).value.handlers);
  }

  lemma {:induction false} AllEnded(hs: seq<Handler>)
    requires forall i :: 0 <= i < |hs| ==> hs[i] == Ended
    ensures Count(hs, IsServing) == 0 && Count(hs, IsReleased) == 0
  {
    if hs == [] {
    } else {
      AllEnded(hs[..|hs| - 1]);
    }
  }

  lemma RunAppend(cap: nat, events: seq<Event>, e: Event)
    requires Run(cap, events).Some? && Enabled(Run(cap, events).value, e)
    ensures Run(cap, events + [e]) == Some(Next(Run(cap, events).value, e))
  {
    assert (events + [e])[..|events|] == events;
  }

  /** A run that takes in one connection more: from a loop at accept with a token to spare. */
  lemma AdmitOne(cap: nat, events: seq<Event>) returns (more: seq<Event>)
    requires Run(cap, events).Some?
    requires var s := Run(cap, events).value; s.loop == Accepting && s.g.tokens < s.cap
    ensures var s := Run(cap, events).value;
            Run(cap, more) == Some(s.(g := CountTotal(Enter(Acquire(s.g))), handlers := s.handlers + [Serving],
                                      accepted := s.accepted + 1))
  {
    RunAppend(cap, events, AcceptConn);
    var e1 := events + [AcceptConn];
    RunAppend(cap, e1, TryToken);
    var e2 := e1 + [TryToken];
    RunAppend(cap, e2, EnterActive);
    var e3 := e2 + [EnterActive];
    RunAppend(cap, e3, AddTotal);
    var e4 := e3 + [AddTotal];
    RunAppend(cap, e4, Spawn);
    more := e4 + [Spawn];
  }

  /** The reachable numbers of tokens are exactly those up to the capacity. */
  lemma TokensReachExactly(cap: nat, n: nat)
    ensures (exists events :: Run(cap, events).Some? && Run(cap, events).value.g.tokens == n) <==> n <= cap
  {
    if events :| Run(cap, events).Some? && Run(cap, events).value.g.tokens == n {
      AdmissionLaw(cap, events);
    }
    if n <= cap {
      var events := FillUp(cap, n);
    }
  }

  lemma {:induction false} FillUp(cap: nat, n: nat) returns (events: seq<Event>)
    requires n <= cap
    ensures Run(cap, events).Some?
    ensures var s := Run(cap, events).value; s.cap == cap && s.loop == Accepting && s.g.tokens == n
  {
    if n == 0 {
      events := [];
    } else {
      var before := FillUp(cap, n - 1);
      events := AdmitOne(cap, before);
    }
  }

  /** A connection is refused exactly when as many handlers serve as the capacity allows. */
  lemma RefusedExactly(cap: nat, events: seq<Event>)
    requires Run(cap, events).Some? && Enabled(Run(cap, events).value, TryToken)
    ensures var s := Run(cap, events).value;
            if Count(s.handlers, IsServing) == cap then Next(s, TryToken).loop == Refusing
            else Next(s, TryToken).loop == Admitted && Next(s, TryToken).g.tokens == s.g.tokens + 1
  {
    AdmissionLaw(cap, events);
  }

  /** Handlers that have given their token back but not left: any number of them, one after the
      other, with a single token. */
  lemma {:induction false} PileUp(cap: nat, n: nat) returns (events: seq<Event>)
    requires 0 < cap
    ensures Run(cap, events).Some?
    ensures var s := Run(cap, events).value;
            s.cap == cap && s.loop == Accepting && s.g.tokens == 0 && s.g.active == n
  {
    if n == 0 {
      events := [];
    } else {
      var before := PileUp(cap, n - 1);
      var more := AdmitOne(cap, before);
      var h := |Run(cap, before).value.handlers|;
      RunAppend(cap, more, GiveBack(h));
      events := more + [GiveBack(h)];
    }
  }

  lemma {:induction false} NobodyIn(events: seq<Event>)
    requires Run(0, events).Some?
    ensures var s := Run(0, events).value;
            s.cap == s.g.tokens == s.g.active == 0 && s.handlers == [] && !HoldsToken(s.loop)
  {
    if events == [] {
    } else {
      NobodyIn(events[..|events| - 1]);
    }
  }

  ghost predicate NeverOver(cap: nat, bound: nat) {
    forall events :: Run(cap, events).Some? ==> Run(cap, events).value.g.active <= bound
  }

  /** The active count is bounded neither by the capacity nor by anything else: handlers that have
      given their tokens back still count while the next connections come in.  Only a server that
      admits nobody keeps to a bound on every run, and then to any. */
  lemma ActiveBoundedExactly(cap: nat, bound: nat)
    ensures NeverOver(cap, bound) <==> cap == 0
  {
    if cap == 0 {
      forall events | Run(cap, events).Some? ensures Run(cap, events).value.g.active <= bound {
        NobodyIn(events);
      }
    } else {
      var over := PileUp(cap, bound + 1);
      assert Run(cap, over).value.g.active == bound + 1;
    }
  }
}
