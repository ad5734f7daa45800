/** The relay's table object against the transition system: the handlers' mutex sections,
    carried out on one `Relay` in the order of a run, leave the tables of that run, and what
    each section answers is what decides the handler's next step. */
module RelayRun {
  import opened Text
  import opened Control
  import opened RelayTables
  import opened Rendezvous

  predicate WaitEvent(e: Event) {
    e.ParkIt? || e.UnparkIt? || e.LegacyPark? || e.ClaimIt?
  }

  /** A section under waitMu. */
  method PerformWait(relay: Relay, w: World, e: Event) returns (y: Handler)
    requires WaitEvent(e) && Enabled(w, e) && relay.State() == w.tables
    modifies relay
    ensures relay.State() == NextTables(w, e) && y == Move(w, e)
  {
    var x := w.hs[e.h];
    match e
    case ParkIt(h) =>
      var cid := relay.ParkClient(h, h);
      y := x.(issued := relay.connCID, pc := Finding(x.pc.phone, x.pc.seen));
    case UnparkIt(h) =>
      relay.RemoveWaiter(ClientId(x.issued));
      y := x.(pc := Replying(x.pc.code));
    case LegacyPark(h) =>
      relay.ParkLegacy(x.role.id, h, h);
      y := x.(pc := LegacyFinding);
    case ClaimIt(h) =>
      var entry := relay.Claim(x.role.id);
      y := x.(pc := if entry.Some? then Sending(entry.value.dataCh) else Closed);
  }

  predicate CtrlEvent(e: Event) {
    e.ReadLast? || e.Find? || e.LegacyFind? || e.RegisterIt? || e.UnregisterIt?
  }

  /** A section under ctrlMu.  A handler that reads `lastPhone` remembers in the model, and only
      there, which connection that was. */
  method PerformCtrl(relay: Relay, w: World, e: Event) returns (y: Handler)
    requires CtrlEvent(e) && Enabled(w, e) && relay.State() == w.tables
    modifies relay
    ensures relay.State() == NextTables(w, e) && y == Move(w, e)
  {
    var x := w.hs[e.h];
    match e
    case ReadLast(h) =>
      var id := relay.LastPhone();
      y := x.(pc := if id == "" then Replying(NO_PHONE) else Parking(id, Lookup(w.tables, id)));
    case Find(h) =>
      var sc := relay.FindPhone(x.pc.phone);
      y := x.(pc := if sc.Some? then Notifying(sc.value, x.pc.seen) else Unparking(NO_PHONE));
    case LegacyFind(h) =>
      var sc := relay.FindPhone(x.role.id);
      y := x.(pc := if sc.Some? then LegacyNotifying(sc.value) else LegacyWaiting);
    case RegisterIt(h) =>
      var id := relay.RegisterPhone(h);
      y := x.(role := Phone(relay.nextID), pc := Announcing);
    case UnregisterIt(h) =>
      relay.UnregisterPhone(PhoneId(x.role.k));
      y := x.(pc := Closed);
  }

  /** One step: its mutex section, if it has one, and where the answer takes the handler. */
  method Perform(relay: Relay, w: World, e: Event) returns (y: Handler)
    requires Enabled(w, e) && relay.State() == w.tables
    modifies relay
    ensures relay.State() == NextTables(w, e) && y == Move(w, e)
  {
    if WaitEvent(e) {
      y := PerformWait(relay, w, e);
    } else if CtrlEvent(e) {
      y := PerformCtrl(relay, w, e);
    } else {
      y := Move(w, e);
    }
  }

  /** On every run the object's tables are those of the transition system. */
  method Replay(events: seq<Event>) returns (relay: Relay)
    requires Run(events).Some?
    ensures fresh(relay) && relay.State() == Run(events).value.tables
  {
    if events == [] {
      relay := new Relay();
    } else {
      var before := events[..|events| - 1];
      relay := Replay(before);
      var _ := Perform(relay, Run(before).value, events[|events| - 1]);
    }
  }
}
