/** The relay's promises, over every run: any number of clients, phones and data connections,
    in any interleaving, with writes failing and timeouts firing anywhere. */
module RendezvousTheorems {
  import opened Text
  import opened Control
  import opened RelayTables
  import Socks5
  import opened Rendezvous
  import opened RendezvousInv
  import opened Pairing
  import opened Crosstalk
  import opened HandOff

  ghost predicate OutsOk(w: World) {
    forall h :: h in w.hs ==> OutFits(w.hs[h].said)
  }

  ghost predicate Inv(w: World) {
    && HandlersOk(w) && OutsOk(w) && RegistryOk(w) && StreamsExist(w) && MemoryOk(w)
    && PairingOk(w) && StreamsOk(w)
    && (HostsClean(w) ==> OriginsOk(w))
    && (KeysApart(w) ==> HandOffsOk(w))
  }

  lemma InvInitial()
    ensures Inv(INITIAL)
  {
  }

  lemma OutsStep(w: World, e: Event)
    requires Enabled(w, e) && OutsOk(w)
    ensures OutsOk(Next(w, e))
  {
    assert e.Accept? || OutFits(w.hs[e.h].said);
    OutStep(w, e);
  }

  lemma BaseStep(w: World, e: Event)
    requires Ready(w, e) && HandlersOk(w) && OutsOk(w) && RegistryOk(w) && StreamsExist(w) && MemoryOk(w)
    ensures var v := Next(w, e);
            HandlersOk(v) && OutsOk(v) && RegistryOk(v) && StreamsExist(v) && MemoryOk(v)
  {
    HandlersStep(w, e);
    OutsStep(w, e);
    RegistryStep(w, e);
    StreamsExistStep(w, e);
    MemoryStep(w, e);
  }

  lemma InvStep(w: World, e: Event)
    requires Inv(w) && Enabled(w, e)
    ensures Inv(Next(w, e))
  {
    var v := Next(w, e);
    assert Ready(w, e);
    BaseStep(w, e);
    PairingStep(w, e);
    StreamsStep(w, e);
    WorldEvolves(w, e);
    AssumptionsPersist(w, v);
    if HostsClean(v) {
      OriginsStep(w, e);
    }
    if KeysApart(v) {
      HandOffsStep(w, e);
    }
  }

  lemma {:induction false} InvAlways(events: seq<Event>)
    requires Run(events).Some?
    ensures Inv(Run(events).value)
  {
    if events == [] {
      InvInitial();
    } else {
      InvAlways(events[..|events| - 1]);
      InvStep(Run(events[..|events| - 1]).value, events[|events| - 1]);
    }
  }

  lemma ReadyAt(w: World, e: Event)
    requires Inv(w) && Enabled(w, e)
    ensures Ready(w, e) && PairingOk(w)
  {
  }

  // ---- The assumptions of the theorems ----

  lemma {:induction false} EvolvesAlong(events: seq<Event>, n: nat)
    requires Run(events).Some? && n <= |events|
    ensures Run(events[..n]).Some? && Evolves(Run(events[..n]).value, Run(events).value)
  {
    if n == |events| {
      assert events[..n] == events;
    } else {
      var before, e := events[..|events| - 1], events[|events| - 1];
      assert before[..n] == events[..n];
      EvolvesAlong(before, n);
      InvAlways(before);
      WorldEvolves(Run(before).value, e);
      EvolvesTransitive(Run(before[..n]).value, Run(before).value, Run(events).value);
    }
  }

  /** An assumption that is true of a run's last state was true all along the run. */
  lemma AssumptionsHeldAllAlong(events: seq<Event>, n: nat)
    requires Run(events).Some? && n <= |events|
    ensures Run(events[..n]).Some?
    ensures HostsClean(Run(events).value) ==> HostsClean(Run(events[..n]).value)
    ensures KeysApart(Run(events).value) ==> KeysApart(Run(events[..n]).value)
    ensures PhonesHonest(Run(events).value) ==> PhonesHonest(Run(events[..n]).value)
  {
    EvolvesAlong(events, n);
    AssumptionsPersist(Run(events[..n]).value, Run(events).value);
  }

  // ---- No crosstalk ----

  /** On every run, whatever hosts are asked for: the order a data connection was opened for still
      stands at its line of the phone's stream, and the connection named that order's id. */
  lemma {:induction false} OrdersStandAlways(events: seq<Event>)
    requires Run(events).Some?
    ensures OrdersStand(Run(events).value)
  {
    if events == [] {
    } else {
      var before := events[..|events| - 1];
      OrdersStandAlways(before);
      InvAlways(before);
      ReadyAt(Run(before).value, events[|events| - 1]);
      OrdersStandStep(Run(before).value, events[|events| - 1]);
    }
  }

  /** When no host holds a newline, a client was handed a connection that was opened for an order
      naming its own number and target exactly when the connection was opened for an order at
      all; and that order is the control line its own handler wrote. */
  lemma OwnOrderExactly(events: seq<Event>, h: Conn)
    requires Run(events).Some? && HostsClean(Run(events).value)
    requires var w := Run(events).value; h in w.hs && w.hs[h].role.Client? && w.hs[h].got.Some?
    ensures var w, d := Run(events).value, Run(events).value.hs[h].got.value;
            && d in w.hs && w.hs[d].role.Data?
            && (FromOwnOrder(w, h) <==> w.hs[d].role.origin.Some?)
            && (FromOwnLine(w, h) <==> w.hs[d].role.origin.Some?)
  {
    InvAlways(events);
    var w := Run(events).value;
    hide Run, Inv;
    StreamParts(w);
    ReceivedUnderOwnId(w, h);
    if w.hs[w.hs[h].got.value].role.origin.Some? {
      OwnOrder(w, h);
    }
  }

  lemma StreamParts(w: World)
    requires Inv(w) && HostsClean(w)
    ensures PairingOk(w) && OriginsOk(w) && StreamsOk(w) && HandlersOk(w)
  {
  }

  lemma OwnOrder(w: World, h: Conn)
    requires PairingOk(w) && OriginsOk(w) && StreamsOk(w) && HandlersOk(w) && HostsClean(w)
    requires h in w.hs && w.hs[h].role.Client? && w.hs[h].got.Some?
    requires var d := w.hs[h].got.value; d in w.hs && w.hs[d].role.Data? && w.hs[d].role.origin.Some?
    ensures FromOwnOrder(w, h) && FromOwnLine(w, h)
  {
    ReceivedUnderOwnId(w, h);
    var r := w.hs[w.hs[h].got.value].role;
    assert OriginOk(w, r);
    hide StreamsOk, PairingOk, OrdersFor, Told, HandlersOk, OriginsOk, HostsClean;
    OwnLineIsRead(w, h, r.origin.value);
  }

  lemma OwnLineIsRead(w: World, h: Conn, o: Origin)
    requires StreamsOk(w) && PairingOk(w) && HostsClean(w) && h in w.hs && w.hs[h].role.Client? && 0 < w.hs[h].issued
    requires o.phone in w.ctl && Told(w.ctl[o.phone].log, o.line, ClientId(w.hs[h].issued))
    ensures o.line < |w.ctl[o.phone].log| && w.ctl[o.phone].log[o.line] == Entry(h, LineFor(w.hs[h]))
    ensures OrdersFor(OrderAt(BytesOf(w.ctl[o.phone]), o.line), w.hs[h])
  {
    hide BytesOf, OrderAt, JoinHostPort, ReadsAs, StreamsOk, PairingOk, HostsClean;
    TheLineIsItsOwn(w, h, o);
    ToldIsRead(w, o, ClientId(w.hs[h].issued));
    TargetReadsBack(w.hs[h].role.host, w.hs[h].role.port);
  }

  /** With honest phones and clean hosts a SOCKS5 client is only ever handed a data connection that
      a phone opened for an order naming the client's own number and the target it asked for, and
      that order is the control line its own handler wrote. */
  lemma NoCrosstalk(events: seq<Event>, h: Conn)
    requires Run(events).Some?
    requires var w := Run(events).value; HostsClean(w) && PhonesHonest(w)
    requires var w := Run(events).value; h in w.hs && w.hs[h].role.Client? && w.hs[h].got.Some?
    ensures FromOwnOrder(Run(events).value, h) && FromOwnLine(Run(events).value, h)
  {
    var w := Run(events).value;
    assert PairingOk(w) && HandlerOk(w.hs[h]) by {
      InvAlways(events);
    }
    ReceivedUnderOwnId(w, h);
    OwnOrderExactly(events, h);
  }

  /** What a line told is what a phone reads there. */
  lemma ToldIsRead(w: World, o: Origin, id: string)
    requires StreamsOk(w) && HostsClean(w) && o.phone in w.ctl && Told(w.ctl[o.phone].log, o.line, id)
    ensures var log := w.ctl[o.phone].log;
            OrderAt(BytesOf(w.ctl[o.phone]), o.line) == Meaning(log[o.line].msg, PhoneId(log[0].msg.phone))
  {
    var s := w.ctl[o.phone];
    assert StreamOk(w, o.phone, s);
    forall m | m in Messages(s.log) ensures Framable(m) {
      var i :| 0 <= i < |s.log| && s.log[i].msg == m;
      EntryFramable(w, o.phone, s.log[i]);
    }
    MessageIsRead(Messages(s.log), s.tail, o.line);
  }

  lemma ReceivedUnderOwnId(w: World, h: Conn)
    requires PairingOk(w) && h in w.hs && w.hs[h].role.Client? && w.hs[h].got.Some? && HandlerOk(w.hs[h])
    ensures var d := w.hs[h].got.value;
            && d in w.hs && w.hs[d].role.Data? && w.hs[d].role.id == ClientId(w.hs[h].issued)
            && 0 < w.hs[h].issued && IssuedId(w, w.hs[d].role.id)
  {
    var d := w.hs[h].got.value;
    assert w.chans[h].sent == [d];
    assert TakenFor(w, d, h);
  }

  lemma TheLineIsItsOwn(w: World, h: Conn, o: Origin)
    requires StreamsOk(w) && PairingOk(w) && h in w.hs && w.hs[h].role.Client? && 0 < w.hs[h].issued
    requires o.phone in w.ctl && Told(w.ctl[o.phone].log, o.line, ClientId(w.hs[h].issued))
    ensures w.ctl[o.phone].log[o.line] == Entry(h, LineFor(w.hs[h]))
  {
    var n := w.ctl[o.phone].log[o.line];
    assert StreamOk(w, o.phone, w.ctl[o.phone]);
    assert EntryOk(w, o.phone, n);
    assert ClientId(w.hs[h].issued)[0] == 'c';
    if n.msg.ClientFor? {
      ClientIdInjective(w.hs[h].issued, w.hs[n.author].issued);
    }
  }

  // ---- Exactly-once pairing ----

  lemma SentOnce(w: World, c: Conn, b: Conn, d: Conn)
    requires ChansOk(w) && SentOk(w) && c in w.chans && b in w.chans && d in w.chans[c].sent && d in w.chans[b].sent
    ensures c == b
  {
    assert w.chans[c].sent == [d] && w.chans[b].sent == [d];
  }

  lemma SendIsFree(w: World, d: Conn)
    requires ChansOk(w) && ClaimsOk(w) && d in w.hs && w.hs[d].pc.Sending?
    ensures Enabled(w, Send(d))
  {
    assert w.chans[w.hs[d].pc.ch].held == [];
  }

  /** A channel carries at most one connection over its life, a connection goes through at most
      one channel, and a handler about to send never finds the channel full. */
  lemma ExactlyOnce(events: seq<Event>)
    requires Run(events).Some?
    ensures var w := Run(events).value;
            && (forall c :: c in w.chans ==> |w.chans[c].sent| <= 1)
            && (forall c, b, d :: c in w.chans && b in w.chans && d in w.chans[c].sent && d in w.chans[b].sent ==>
                  c == b)
            && (forall d :: d in w.hs && w.hs[d].pc.Sending? ==> Enabled(w, Send(d)))
  {
    var w := Run(events).value;
    assert ChansOk(w) && SentOk(w) && ClaimsOk(w) by {
      InvAlways(events);
    }
    forall c, b, d | c in w.chans && b in w.chans && d in w.chans[c].sent && d in w.chans[b].sent ensures c == b {
      SentOnce(w, c, b, d);
    }
    forall d | d in w.hs && w.hs[d].pc.Sending? ensures Enabled(w, Send(d)) {
      SendIsFree(w, d);
    }
  }

  // ---- No lost hand-off ----

  /** A SOCKS5 handler still in its wait has its entry in `wait`, or one data handler is on its
      way to it, or its channel holds a data connection; and just one of the three. */
  lemma NoLostHandOff(events: seq<Event>, h: Conn)
    requires Run(events).Some?
    requires KeysApart(Run(events).value)
    requires var w := Run(events).value; h in w.hs && IsWaiting(w.hs[h])
    ensures var w := Run(events).value;
            && (InWait(w, h) || IsClaimed(w, h) || Arrived(w, h))
            && !(InWait(w, h) && IsClaimed(w, h)) && !(InWait(w, h) && Arrived(w, h))
            && !(IsClaimed(w, h) && Arrived(w, h))
            && forall d, g :: d in w.hs && g in w.hs && w.hs[d].pc == Sending(h) && w.hs[g].pc == Sending(h) ==> d == g
  {
    InvAlways(events);
    OnePlace(Run(events).value, h);
  }

  /** Without the assumption: at any reachable state a step loses a waiting client's hand-off
      exactly when it is a legacy client parking on the client's own entry. */
  lemma HandOffLostExactly(events: seq<Event>, e: Event, h: Conn)
    requires Run(events).Some? && Enabled(Run(events).value, e)
    requires var w := Run(events).value; h in w.hs && IsWaiting(w.hs[h]) && IsWaiting(Next(w, e).hs[h])
    ensures var w := Run(events).value; InHand(Next(w, e), h) <==> InHand(w, h) && !Overwrites(w, e, h)
  {
    InvAlways(events);
    HandOffStep(Run(events).value, e, h);
  }

  /** Step `k` of the run is a legacy client taking the entry of `h` while `h` waits. */
  ghost predicate OverwrittenAt(events: seq<Event>, k: nat, h: Conn) {
    && k < |events| && Run(events[..k]).Some?
    && var w := Run(events[..k]).value;
       h in w.hs && IsWaiting(w.hs[h]) && Overwrites(w, events[k], h)
  }

  ghost predicate NeverOverwritten(events: seq<Event>, h: Conn) {
    forall k: nat :: k < |events| ==> !OverwrittenAt(events, k, h)
  }

  lemma OverwrittenBefore(events: seq<Event>, e: Event, k: nat, h: Conn)
    requires k < |events|
    ensures OverwrittenAt(events + [e], k, h) <==> OverwrittenAt(events, k, h)
  {
    assert (events + [e])[..k] == events[..k];
  }

  lemma OverwrittenNow(events: seq<Event>, e: Event, h: Conn)
    requires Run(events).Some? && h in Run(events).value.hs && IsWaiting(Run(events).value.hs[h])
    ensures NeverOverwritten(events + [e], h) <==>
            NeverOverwritten(events, h) && !Overwrites(Run(events).value, e, h)
  {
    hide Run, Overwrites, IsWaiting;
    assert (events + [e])[..|events|] == events;
    assert OverwrittenAt(events + [e], |events|, h) <==> Overwrites(Run(events).value, e, h);
    forall k: nat | k < |events| ensures OverwrittenAt(events + [e], k, h) <==> OverwrittenAt(events, k, h) {
      OverwrittenBefore(events, e, k, h);
    }
  }

  lemma NotWaitingYet(events: seq<Event>, h: Conn, k: nat)
    requires Run(events).Some? && k <= |events|
    requires h in Run(events).value.hs ==> Run(events).value.hs[h].issued == 0
    ensures Run(events[..k]).Some?
    ensures h in Run(events[..k]).value.hs ==> !IsWaiting(Run(events[..k]).value.hs[h])
  {
    EvolvesAlong(events, k);
    var u, w := Run(events[..k]).value, Run(events).value;
    assert h in u.hs ==> h in w.hs && Settled(u.hs[h], w.hs[h]);
  }

  /** A handler that has drawn no number yet cannot have been overwritten. */
  lemma NotOverwrittenYet(events: seq<Event>, e: Event, h: Conn)
    requires Run(events).Some?
    requires h in Run(events).value.hs ==> Run(events).value.hs[h].issued == 0
    ensures NeverOverwritten(events + [e], h)
  {
    forall k: nat | k < |events + [e]| ensures !OverwrittenAt(events + [e], k, h) {
      NotWaitingYet(events, h, k);
      assert (events + [e])[..k] == events[..k];
    }
  }

  lemma JustParked(w: World, e: Event, h: Conn)
    requires Inv(w) && Enabled(w, e) && h in Next(w, e).hs && IsWaiting(Next(w, e).hs[h])
    requires h in w.hs ==> !IsWaiting(w.hs[h])
    ensures InHand(Next(w, e), h) && h in w.hs && w.hs[h].issued == 0
  {
    hide InHand, Obeys, Inv, Move;
    ReadyAt(w, e);
    assert h == e.h;
    ParkedInHand(w, e);
    OnlyParkingWaits(w, e);
  }

  /** Over whole runs: a client that waits at the end is in hand if and only if no legacy client
      took its entry on the way. */
  lemma {:induction false} HandOffOverRun(events: seq<Event>, h: Conn)
    requires Run(events).Some?
    requires var w := Run(events).value; h in w.hs && IsWaiting(w.hs[h])
    ensures InHand(Run(events).value, h) <==> NeverOverwritten(events, h)
  {
    var before, e := events[..|events| - 1], events[|events| - 1];
    assert events == before + [e];
    var w := Run(before).value;
    InvAlways(before);
    hide InHand, Overwrites, Enabled, NeverOverwritten, IsWaiting, Next, Inv;
    if h in w.hs && IsWaiting(w.hs[h]) {
      HandOffOverRun(before, h);
      ReadyAt(w, e);
      HandOffStep(w, e, h);
      OverwrittenNow(before, e, h);
    } else {
      JustParked(w, e, h);
      NotOverwrittenYet(before, e, h);
    }
  }

  // ---- No leak ----

  /** Once a SOCKS5 handler is past its wait, on any path, its channel is nowhere in `wait`. */
  lemma NoLeak(events: seq<Event>, h: Conn)
    requires Run(events).Some?
    requires var w := Run(events).value; h in w.hs && w.hs[h].role.Client? && !IsWaiting(w.hs[h])
    ensures var w := Run(events).value;
            forall id :: id in w.tables.wait ==> w.tables.wait[id].dataCh != h
  {
    InvAlways(events);
  }

  lemma {:induction false} InjectionCard(wait: map<string, WaitEntry>, owners: set<Conn>)
    requires forall id :: id in wait ==> wait[id].dataCh in owners
    requires forall i, j :: i in wait && j in wait && wait[i].dataCh == wait[j].dataCh ==> i == j
    ensures |wait| <= |owners|
    decreases |wait|
  {
    if |wait| == 0 {
    } else {
      var id :| id in wait;
      var rest := wait - {id};
      assert rest.Keys == wait.Keys - {id};
      assert |rest| == |wait| - 1 by {
        assert |rest.Keys| == |wait.Keys| - 1;
      }
      InjectionCard(rest, owners - {wait[id].dataCh});
    }
  }

  ghost function Waiters(w: World): set<Conn> {
    set h | h in w.hs && IsWaiting(w.hs[h])
  }

  ghost function LegacyClients(w: World): set<Conn> {
    set h | h in w.hs && w.hs[h].role.Legacy?
  }

  /** `wait` never outgrows the SOCKS5 handlers still in their wait plus the legacy clients; so
      without legacy clients it is bounded by the live handlers. */
  lemma WaitIsBounded(events: seq<Event>)
    requires Run(events).Some?
    ensures var w := Run(events).value; |w.tables.wait| <= |Waiters(w) + LegacyClients(w)|
    ensures var w := Run(events).value; LegacyClients(w) == {} ==> |w.tables.wait| <= |Waiters(w)|
  {
    var w := Run(events).value;
    assert WaitOk(w) && ChansOk(w) by {
      InvAlways(events);
    }
    OwnersWait(w);
    if LegacyClients(w) == {} {
      assert Waiters(w) + LegacyClients(w) == Waiters(w);
    }
  }

  lemma OwnersWait(w: World)
    requires WaitOk(w) && ChansOk(w)
    ensures |w.tables.wait| <= |Waiters(w) + LegacyClients(w)|
  {
    forall id | id in w.tables.wait ensures w.tables.wait[id].dataCh in Waiters(w) + LegacyClients(w) {
      var x := w.hs[w.tables.wait[id].dataCh];
      assert MayBeInWait(x) && HasChan(x);
    }
    forall i, j | i in w.tables.wait && j in w.tables.wait && w.tables.wait[i].dataCh == w.tables.wait[j].dataCh
      ensures i == j
    {
      WaitInjective(w, i, j);
    }
    InjectionCard(w.tables.wait, Waiters(w) + LegacyClients(w));
  }

  // ---- The registry ----

  /** `lastPhone` is the id of the latest registration exactly as long as that phone is registered,
      and empty otherwise; every registered id leads to the one connection that was ever given it,
      and every phone between registering and leaving is registered. */
  lemma RegistryHolds(events: seq<Event>)
    requires Run(events).Some?
    ensures RegistrySpec(Run(events).value)
  {
    InvAlways(events);
    hide Run, Inv, RegistrySpec;
    InvParts(Run(events).value);
    RegistryFacts(Run(events).value);
  }

  ghost predicate RegistrySpec(w: World) {
    var t := w.tables;
    && (t.lastPhone == PhoneId(t.nextID) <==> PhoneId(t.nextID) in t.ctrl)
    && (t.lastPhone == "" <==> PhoneId(t.nextID) !in t.ctrl)
    && (forall c :: c in w.hs && OnRegister(w.hs[c]) ==>
          PhoneId(w.hs[c].role.k) in t.ctrl && t.ctrl[PhoneId(w.hs[c].role.k)] == c)
    && (forall id :: id in t.ctrl ==> IsPhone(w, t.ctrl[id], id))
    && (forall c, d, id :: IsPhone(w, c, id) && IsPhone(w, d, id) ==> c == d)
  }

  lemma RegistryFacts(w: World)
    requires RegistryOk(w)
    ensures RegistrySpec(w)
  {
    OnePhoneAnId(w);
    LastPhoneHolds(w);
  }

  lemma LastPhoneHolds(w: World)
    requires LastOk(w.tables)
    ensures w.tables.lastPhone == PhoneId(w.tables.nextID) <==> PhoneId(w.tables.nextID) in w.tables.ctrl
    ensures w.tables.lastPhone == "" <==> PhoneId(w.tables.nextID) !in w.tables.ctrl
  {
  }

  lemma OnePhoneAnId(w: World)
    requires RegistryOk(w)
    ensures forall c, d, id :: IsPhone(w, c, id) && IsPhone(w, d, id) ==> c == d
  {
    forall c, d, id | IsPhone(w, c, id) && IsPhone(w, d, id) ensures c == d {
      PhoneIdInjective(w.hs[c].role.k, w.hs[d].role.k);
    }
  }

  lemma OtherTablesStandStill(w: World, e: Event)
    requires Enabled(w, e) && !e.RegisterIt? && !e.UnregisterIt?
    ensures NextTables(w, e).lastPhone == w.tables.lastPhone
  {
  }

  lemma LeavingChangesLast(w: World, e: Event)
    requires RegistryOk(w) && HandlersOk(w) && Enabled(w, e) && e.UnregisterIt?
    ensures NextTables(w, e).lastPhone == if w.hs[e.h].role.k == w.tables.nextID then "" else w.tables.lastPhone
  {
    hide Obeys;
    assert OnRegister(w.hs[e.h]);
    if PhoneId(w.hs[e.h].role.k) == PhoneId(w.tables.nextID) {
      PhoneIdInjective(w.hs[e.h].role.k, w.tables.nextID);
    }
  }

  /** A step changes `lastPhone` only if it registers a phone, or takes the latest phone off. */
  lemma LastPhoneStands(events: seq<Event>, e: Event)
    requires Run(events).Some? && Enabled(Run(events).value, e)
    ensures var t, u := Run(events).value.tables, Next(Run(events).value, e).tables;
            u.lastPhone == if e.RegisterIt? then PhoneId(t.nextID + 1)
                           else if e.UnregisterIt? && Run(events).value.hs[e.h].role.k == t.nextID then ""
                           else t.lastPhone
  {
    InvAlways(events);
    var w := Run(events).value;
    hide Run, Inv;
    InvParts(w);
    if e.UnregisterIt? {
      LeavingChangesLast(w, e);
    } else if !e.RegisterIt? {
      OtherTablesStandStill(w, e);
    }
  }

  lemma InvParts(w: World)
    requires Inv(w)
    ensures RegistryOk(w) && HandlersOk(w)
  {
  }

  /** The phone a SOCKS5 handler writes to is the connection that was `lastPhone` when it chose,
      however many phones came and went in between. */
  lemma SamePhone(events: seq<Event>, h: Conn)
    requires Run(events).Some?
    requires var w := Run(events).value; h in w.hs && w.hs[h].pc.Notifying?
    ensures var pc := Run(events).value.hs[h].pc; pc.seen == Some(pc.sc)
  {
    assert Remembers(Run(events).value, Run(events).value.hs[h]) by {
      InvAlways(events);
    }
  }

  // ---- Replies ----

  /** Before any piping a SOCKS5 client has been sent a prefix of the method reply and one
      final reply, whatever writes failed. */
  lemma ReplyDiscipline(events: seq<Event>, h: Conn)
    requires Run(events).Some? && h in Run(events).value.hs
    ensures exists code: Byte ::
              Run(events).value.hs[h].said.out <= [5, 0] + [5, code, 0, 1, 0, 0, 0, 0, 0, 0]
  {
    InvAlways(events);
    var x := Run(events).value.hs[h];
    assert HandlerOk(x) && OutFits(x.said);
    var code: Byte := if |x.said.offers| == 2 then x.said.offers[1].code else 0;
    OffersBytes(x.said.offers, code);
    assert x.said.out <= [5, 0] + [5, code, 0, 1, 0, 0, 0, 0, 0, 0];
  }

  lemma OffersBytes(rs: seq<Reply>, code: Byte)
    requires rs == [] || rs == [Method] || rs == [Method, Final(code)]
    ensures AllBytes(rs) <= [5, 0] + [5, code, 0, 1, 0, 0, 0, 0, 0, 0]
  {
    assert [Method][..0] == [];
    assert AllBytes([Method]) == [5, 0];
    assert [Method, Final(code)][..1] == [Method];
  }

  /** A client with a request gets at most one final reply and its code tells what befell it:
      granted exactly when a data connection was received, timed out when its line went out but
      none came, no phone otherwise.  The grant precedes piping; a closed client was answered. */
  lemma ReplyTellsFate(events: seq<Event>, h: Conn)
    requires Run(events).Some? && h in Run(events).value.hs
    requires Run(events).value.hs[h].role.Client?
    ensures var x := Run(events).value.hs[h];
            && (x.said.offers == [Method] || x.said.offers == [Method, Final(Fate(x))])
            && (x.pc.Piping? ==> x.got.Some? && x.said.offers == [Method, Final(0)])
            && (x.pc.Closed? ==> x.said.offers == [Method, Final(Fate(x))])
  {
    var x := Run(events).value.hs[h];
    assert HandlerOk(x) by {
      InvAlways(events);
    }
  }

  // ---- The guards of the model hide nothing ----

  /** The step a handler is about to take, writes accepting `k` bytes. */
  function OwnStep(h: Conn, pc: Pc, k: nat): Option<Event> {
    match pc
    case Greeting => Some(Greet(h, true, k))
    case Requesting => Some(Request(h, Socks5.ShortRequest, ""))
    case PickPhone => Some(ReadLast(h))
    case Parking(_, _) => Some(ParkIt(h))
    case Finding(_, _) => Some(Find(h))
    case Notifying(_, _) => Some(Notify(h, k))
    case Waiting => Some(Timeout(h))
    case Unparking(_) => Some(UnparkIt(h))
    case Replying(_) => Some(ReplyIt(h, k))
    case LegacyParking => Some(LegacyPark(h))
    case LegacyFinding => Some(LegacyFind(h))
    case LegacyNotifying(_) => Some(LegacyNotify(h, k))
    case LegacyWaiting => Some(LegacyTimeout(h))
    case Claiming => Some(ClaimIt(h))
    case Sending(_) => Some(Send(h))
    case Registering => Some(RegisterIt(h))
    case Announcing => Some(Announce(h, k))
    case Listening => Some(HangUp(h))
    case Leaving => Some(UnregisterIt(h))
    case Piping => Some(Finish(h))
    case Accepted => Some(Begin(h, OpenLine(OtherLine)))
    case Closed => None
  }

  predicate WritesToPhone(pc: Pc) {
    pc.Notifying? || pc.LegacyNotifying? || pc.Announcing?
  }

  lemma WriterNotStuck(w: World, h: Conn, k: nat)
    requires h in w.hs && HandlerOk(w.hs[h]) && Remembers(w, w.hs[h]) && StreamsExist(w) && WritesToPhone(w.hs[h].pc)
    ensures OwnStep(h, w.hs[h].pc, k).Some? && Enabled(w, OwnStep(h, w.hs[h].pc, k).value)
  {
    hide Obeys;
  }

  lemma NotStuck(w: World, h: Conn, k: nat)
    requires h in w.hs && w.hs[h].pc != Closed && HandlerOk(w.hs[h])
    requires !WritesToPhone(w.hs[h].pc) && !w.hs[h].pc.Sending?
    ensures OwnStep(h, w.hs[h].pc, k).Some? && Enabled(w, OwnStep(h, w.hs[h].pc, k).value)
  {
    hide Obeys;
  }

  /** In every reachable state every open handler can take its next step. */
  lemma NeverStuck(events: seq<Event>, h: Conn, k: nat)
    requires Run(events).Some? && h in Run(events).value.hs && Run(events).value.hs[h].pc != Closed
    ensures var w := Run(events).value;
            OwnStep(h, w.hs[h].pc, k).Some? && Enabled(w, OwnStep(h, w.hs[h].pc, k).value)
  {
    InvAlways(events);
    var w := Run(events).value;
    if w.hs[h].pc.Sending? {
      SendIsFree(w, h);
    } else {
      assert HandlerOk(w.hs[h]) && Remembers(w, w.hs[h]);
      if WritesToPhone(w.hs[h].pc) {
        WriterNotStuck(w, h, k);
      } else {
        NotStuck(w, h, k);
      }
    }
  }

  // ---- Every handler ends ----

  /** How many steps a handler can still take. */
  function StepsLeft(pc: Pc): nat {
    match pc
    case Accepted => 11
    case Greeting => 10
    case Requesting => 9
    case PickPhone => 8
    case Parking(_, _) => 7
    case Finding(_, _) => 6
    case Notifying(_, _) => 5
    case Waiting => 4
    case Unparking(_) => 3
    case Replying(_) => 2
    case LegacyParking => 5
    case LegacyFinding => 4
    case LegacyNotifying(_) => 3
    case LegacyWaiting => 2
    case Claiming => 2
    case Sending(_) => 1
    case Registering => 4
    case Announcing => 3
    case Listening => 2
    case Leaving => 1
    case Piping => 1
    case Closed => 0
  }

  lemma RequestAdvances(w: World, e: Event)
    requires Enabled(w, e) && (RequestEvent(e) || AnswerEvent(e))
    ensures StepsLeft(Move(w, e).pc) < StepsLeft(w.hs[e.h].pc)
  {
    hide Obeys;
  }

  lemma OtherAdvances(w: World, e: Event)
    requires Enabled(w, e) && !e.Accept? && !RequestEvent(e) && !AnswerEvent(e)
    ensures StepsLeft(Move(w, e).pc) < StepsLeft(w.hs[e.h].pc)
  {
    hide Obeys;
  }

  lemma StepAdvances(w: World, e: Event)
    requires Enabled(w, e) && !e.Accept?
    ensures StepsLeft(Move(w, e).pc) < StepsLeft(w.hs[e.h].pc)
  {
    hide Obeys;
    if RequestEvent(e) || AnswerEvent(e) {
      RequestAdvances(w, e);
    } else {
      OtherAdvances(w, e);
    }
  }

  /** How often handler `h` has stepped, its being accepted included. */
  function StepsOf(events: seq<Event>, h: Conn): nat {
    if events == [] then 0
    else StepsOf(events[..|events| - 1], h) + if events[|events| - 1].h == h then 1 else 0
  }

  /** On every run a handler steps at most 12 times, and the fewer the less it has left. */
  lemma {:induction false} StepsBounded(events: seq<Event>, h: Conn)
    requires Run(events).Some?
    ensures var w := Run(events).value;
            StepsOf(events, h) + (if h in w.hs then StepsLeft(w.hs[h].pc) else 12) <= 12
  {
    if events == [] {
    } else {
      var before, e := events[..|events| - 1], events[|events| - 1];
      StepsBounded(before, h);
      if e.h == h && !e.Accept? {
        StepAdvances(Run(before).value, e);
      }
    }
  }

  lemma TakeOwnStep(events: seq<Event>, h: Conn) returns (e: Event)
    requires Run(events).Some? && h in Run(events).value.hs && Run(events).value.hs[h].pc != Closed
    ensures e.h == h && Run(events + [e]).Some? && h in Run(events + [e]).value.hs
    ensures StepsLeft(Run(events + [e]).value.hs[h].pc) < StepsLeft(Run(events).value.hs[h].pc)
  {
    hide Obeys, StepsLeft;
    var w := Run(events).value;
    NeverStuck(events, h, 0);
    e := OwnStep(h, w.hs[h].pc, 0).value;
    assert (events + [e])[..|events|] == events;
    StepAdvances(w, e);
  }

  /** From every state of every run each open handler can be brought to its end by its own steps
      alone, whatever the others do not do, and in no more than it has left. */
  lemma CanFinish(events: seq<Event>, h: Conn) returns (more: seq<Event>)
    requires Run(events).Some? && h in Run(events).value.hs
    ensures Run(events + more).Some? && h in Run(events + more).value.hs
    ensures Run(events + more).value.hs[h].pc == Closed && |more| <= StepsLeft(Run(events).value.hs[h].pc)
    ensures forall e :: e in more ==> e.h == h
    decreases StepsLeft(Run(events).value.hs[h].pc)
  {
    hide Run, StepsLeft;
    if Run(events).value.hs[h].pc == Closed {
      more := [];
      assert events + more == events;
    } else {
      var e := TakeOwnStep(events, h);
      var rest := CanFinish(events + [e], h);
      more := [e] + rest;
      assert events + more == events + [e] + rest;
    }
  }
}
