/** What every step of the rendezvous protocol keeps. */
module RendezvousInv {
  import opened Text
  import opened Control
  import opened RelayTables
  import opened Rendezvous

  // ---- One handler on its own ----

  /** The reply code owed to a SOCKS5 client with a request (section 6 of RFC 1928), from what
      befell its handler: succeeded, network unreachable, or general failure. */
  function Fate(x: Handler): Byte {
    if x.got.Some? then 0 else if x.wrote then 3 else 1
  }

  /** No client number drawn, nothing received, no line written. */
  predicate Plain(x: Handler) {
    x.issued == 0 && x.got.None? && !x.wrote
  }

  /** A parked SOCKS5 client; data is received only after the line went out. */
  predicate Parked(x: Handler) {
    x.role.Client? && 0 < x.issued && (x.got.Some? ==> x.wrote)
  }

  /** What holds of a handler at each program point: its role, its history and its replies. */
  predicate HandlerOk(x: Handler) {
    match x.pc
    case Accepted | Greeting | Registering => x.role.Unknown? && Plain(x) && x.said.offers == []
    case Requesting => x.role.Unknown? && Plain(x) && x.said.offers == [Method]
    case PickPhone | Parking(_, _) => x.role.Client? && Plain(x) && x.said.offers == [Method]
    case Finding(_, _) | Notifying(_, _) => Parked(x) && x.got.None? && !x.wrote && x.said.offers == [Method]
    case Waiting => Parked(x) && x.got.None? && x.wrote && x.said.offers == [Method]
    case Unparking(code) => Parked(x) && x.got.None? && code == Fate(x) && x.said.offers == [Method]
    case Replying(code) =>
      && x.said.offers == [Method]
      && if x.role.Unknown? then Plain(x) && (code == 7 || code == 8)
         else x.role.Client? && (Parked(x) || Plain(x)) && code == Fate(x)
    case LegacyParking | LegacyFinding | LegacyNotifying(_) | LegacyWaiting =>
      x.role.Legacy? && Plain(x) && x.said.offers == []
    case Claiming | Sending(_) => x.role.Data? && Plain(x) && x.said.offers == []
    case Announcing | Listening | Leaving => x.role.Phone? && Plain(x) && x.said.offers == []
    case Piping =>
      && x.got.Some?
      && if x.role.Legacy? then x.issued == 0 && !x.wrote && x.said.offers == []
         else Parked(x) && x.said.offers == [Method, Final(0)]
    case Closed =>
      match x.role
      case Client(_, _) => (Parked(x) || Plain(x)) && x.said.offers == [Method, Final(Fate(x))]
      case Legacy(_) => x.issued == 0 && !x.wrote && x.said.offers == []
      case Unknown => Plain(x) && (x.said.offers == [] || x.said.offers == [Method] ||
                                   x.said.offers == [Method, Final(7)] ||
                                   x.said.offers == [Method, Final(8)])
      case _ => Plain(x) && x.said.offers == []
  }

  ghost predicate HandlersOk(w: World) {
    forall h :: h in w.hs ==> HandlerOk(w.hs[h])
  }

  /** An enabled step of a handler whose history is in order. */
  predicate Ready(w: World, e: Event) {
    Enabled(w, e) && (e.Accept? || HandlerOk(w.hs[e.h]))
  }

  lemma HandlersStep(w: World, e: Event)
    requires HandlersOk(w) && Enabled(w, e)
    ensures HandlersOk(Next(w, e))
  {
    assert e.Accept? || HandlerOk(w.hs[e.h]);
    HandlerStep(w, e);
  }

  predicate RequestEvent(e: Event) {
    e.ReadLast? || e.ParkIt? || e.Find? || e.Notify? || e.Timeout? || e.UnparkIt?
  }

  predicate AnswerEvent(e: Event) {
    e.Receive? || e.ReplyIt? || e.Greet? || e.Request?
  }

  lemma RequestStep(w: World, e: Event)
    requires RequestEvent(e) && Enabled(w, e) && HandlerOk(w.hs[e.h])
    ensures HandlerOk(Move(w, e))
  {
    hide Obeys;
  }

  lemma AnswerStep(w: World, e: Event)
    requires AnswerEvent(e) && Enabled(w, e) && HandlerOk(w.hs[e.h])
    ensures HandlerOk(Move(w, e))
  {
    hide Obeys;
  }

  predicate LegacyEvent(e: Event) {
    e.LegacyPark? || e.LegacyFind? || e.LegacyNotify? || e.LegacyReceive? || e.LegacyTimeout? || e.Finish?
  }

  lemma LegacyStep(w: World, e: Event)
    requires LegacyEvent(e) && Enabled(w, e) && HandlerOk(w.hs[e.h])
    ensures HandlerOk(Move(w, e))
  {
    hide Obeys;
  }

  lemma BeginStep(w: World, e: Event)
    requires e.Begin? && Enabled(w, e) && HandlerOk(w.hs[e.h])
    ensures HandlerOk(Move(w, e))
  {
    hide Obeys;
  }

  lemma OtherStep(w: World, e: Event)
    requires !RequestEvent(e) && !AnswerEvent(e) && !LegacyEvent(e) && !e.Begin?
    requires Ready(w, e)
    ensures HandlerOk(Move(w, e))
  {
    hide Obeys;
  }

  lemma HandlerStep(w: World, e: Event)
    requires Ready(w, e)
    ensures HandlerOk(Move(w, e))
  {
    if RequestEvent(e) {
      RequestStep(w, e);
    } else if AnswerEvent(e) {
      AnswerStep(w, e);
    } else if LegacyEvent(e) {
      LegacyStep(w, e);
    } else if e.Begin? {
      BeginStep(w, e);
    } else {
      OtherStep(w, e);
    }
  }

  // ---- The bytes a client was sent ----

  predicate OutFits(s: Said) {
    s.out <= AllBytes(s.offers) && (!s.dead ==> s.out == AllBytes(s.offers))
  }

  lemma TellKeepsOut(s: Said, r: Reply, k: nat)
    requires OutFits(s)
    ensures OutFits(Tell(s, r, k))
  {
    assert (s.offers + [r])[..|s.offers|] == s.offers;
  }

  lemma OnlyRepliesSpeak(w: World, e: Event)
    requires Enabled(w, e) && !e.Accept? && !e.ReplyIt? && !(e.Greet? && e.ok)
    ensures Move(w, e).said == w.hs[e.h].said
  {
    hide Obeys;
  }

  lemma OutStep(w: World, e: Event)
    requires Enabled(w, e) && (e.Accept? || OutFits(w.hs[e.h].said))
    ensures OutFits(Move(w, e).said)
  {
    if e.Greet? && e.ok {
      TellKeepsOut(w.hs[e.h].said, Method, e.k);
    } else if e.ReplyIt? {
      TellKeepsOut(w.hs[e.h].said, Final(w.hs[e.h].pc.code), e.k);
    } else if !e.Accept? {
      OnlyRepliesSpeak(w, e);
    }
  }

  // ---- The registry ----

  predicate OnRegister(x: Handler) {
    x.role.Phone? && (x.pc.Announcing? || x.pc.Listening? || x.pc.Leaving?)
  }

  ghost predicate IsPhone(w: World, c: Conn, id: string) {
    c in w.hs && w.hs[c].role.Phone? && id == PhoneId(w.hs[c].role.k)
  }

  /** The keys of `ctrl` are exactly the ids of the connected phones. */
  ghost predicate CtrlOk(w: World) {
    && (forall id :: id in w.tables.ctrl ==>
          IsPhone(w, w.tables.ctrl[id], id) && OnRegister(w.hs[w.tables.ctrl[id]]))
    && (forall c :: c in w.hs && OnRegister(w.hs[c]) ==>
          Lookup(w.tables, PhoneId(w.hs[c].role.k)) == Some(c))
  }

  /** No id is ever given to two phones. */
  ghost predicate PhonesOk(w: World) {
    && (forall c :: c in w.hs && w.hs[c].role.Phone? ==> 0 < w.hs[c].role.k <= w.tables.nextID)
    && (forall c, d :: c in w.hs && d in w.hs && w.hs[c].role.Phone? && w.hs[c].role == w.hs[d].role ==> c == d)
  }

  /** `lastPhone` is the latest id as long as that phone is registered, and empty otherwise. */
  ghost predicate LastOk(t: Tables) {
    t.lastPhone == if PhoneId(t.nextID) in t.ctrl then PhoneId(t.nextID) else ""
  }

  ghost predicate RegistryOk(w: World) {
    CtrlOk(w) && PhonesOk(w) && LastOk(w.tables)
  }

  /** The step changes handler `h` to `y`; phones stay phones, on or off the register. */
  ghost predicate PhonesAsBefore(w: World, h: Conn, y: Handler) {
    if h in w.hs && w.hs[h].role.Phone? then y.role == w.hs[h].role && (OnRegister(y) <==> OnRegister(w.hs[h]))
    else !y.role.Phone?
  }

  lemma RolesOfPhones(w: World, e: Event)
    requires Ready(w, e)
    requires !e.RegisterIt? && !e.UnregisterIt?
    ensures PhonesAsBefore(w, e.h, Move(w, e))
  {
    hide Obeys;
  }

  ghost predicate SameRegistry(t: Tables, u: Tables) {
    t.ctrl == u.ctrl && t.lastPhone == u.lastPhone && t.nextID == u.nextID
  }

  lemma RegistryKept(w: World, v: World, h: Conn, y: Handler)
    requires RegistryOk(w) && PhonesAsBefore(w, h, y)
    requires v.hs == w.hs[h := y] && SameRegistry(w.tables, v.tables)
    ensures RegistryOk(v)
  {
  }

  /** The next phone id has never been used. */
  lemma FreshPhoneId(w: World)
    requires RegistryOk(w)
    ensures forall c :: c in w.hs && w.hs[c].role.Phone? ==>
              PhoneId(w.hs[c].role.k) != PhoneId(w.tables.nextID + 1)
    ensures PhoneId(w.tables.nextID + 1) !in w.tables.ctrl
  {
    var n := w.tables.nextID + 1;
    forall c | c in w.hs && w.hs[c].role.Phone? ensures PhoneId(w.hs[c].role.k) != PhoneId(n) {
      if PhoneId(w.hs[c].role.k) == PhoneId(n) {
        PhoneIdInjective(w.hs[c].role.k, n);
      }
    }
  }

  lemma RegisterKeeps(w: World, v: World, h: Conn, y: Handler)
    requires RegistryOk(w) && h in w.hs && w.hs[h].role.Unknown?
    requires v.hs == w.hs[h := y] && v.tables == Register(w.tables, h)
    requires y.role == Phone(w.tables.nextID + 1) && y.pc == Announcing
    ensures RegistryOk(v)
  {
    assert PhonesOk(v) by {
      assert forall c :: c in v.hs && c != h ==> v.hs[c] == w.hs[c];
    }
    FreshPhoneId(w);
    RegisterKeepsCtrl(w, v, h, y);
  }

  lemma RegisterKeepsCtrl(w: World, v: World, h: Conn, y: Handler)
    requires CtrlOk(w) && h in w.hs && w.hs[h].role.Unknown?
    requires v.hs == w.hs[h := y] && v.tables == Register(w.tables, h)
    requires y.role == Phone(w.tables.nextID + 1) && y.pc == Announcing
    requires PhoneId(w.tables.nextID + 1) !in w.tables.ctrl
    ensures CtrlOk(v)
  {
    hide PhoneId;
    assert v.tables.ctrl == w.tables.ctrl[PhoneId(w.tables.nextID + 1) := h];
    forall id | id in v.tables.ctrl ensures IsPhone(v, v.tables.ctrl[id], id) && OnRegister(v.hs[v.tables.ctrl[id]]) {
      assert id in w.tables.ctrl ==> IsPhone(w, w.tables.ctrl[id], id) && OnRegister(w.hs[w.tables.ctrl[id]]);
    }
    forall c | c in v.hs && OnRegister(v.hs[c]) ensures Lookup(v.tables, PhoneId(v.hs[c].role.k)) == Some(c) {
      assert c != h ==> Lookup(w.tables, PhoneId(w.hs[c].role.k)) == Some(c);
    }
  }

  lemma UnregisterKeeps(w: World, v: World, h: Conn, y: Handler)
    requires RegistryOk(w) && h in w.hs && OnRegister(w.hs[h])
    requires v.hs == w.hs[h := y] && v.tables == Unregister(w.tables, PhoneId(w.hs[h].role.k))
    requires y.role == w.hs[h].role && y.pc == Closed
    ensures RegistryOk(v)
  {
    var id := PhoneId(w.hs[h].role.k);
    forall c | c in v.hs && OnRegister(v.hs[c]) ensures Lookup(v.tables, PhoneId(v.hs[c].role.k)) == Some(c) {
      if PhoneId(w.hs[c].role.k) == id {
        PhoneIdInjective(w.hs[c].role.k, w.hs[h].role.k);
      }
    }
  }

  lemma RegistryOtherwise(w: World, e: Event)
    requires Ready(w, e) && RegistryOk(w)
    requires !e.RegisterIt? && !e.UnregisterIt?
    ensures RegistryOk(Next(w, e))
  {
    RolesOfPhones(w, e);
    RegistryKept(w, Next(w, e), e.h, Move(w, e));
  }

  lemma RegistryStep(w: World, e: Event)
    requires Ready(w, e) && RegistryOk(w)
    ensures RegistryOk(Next(w, e))
  {
    hide Obeys;
    if e.RegisterIt? {
      RegisterKeeps(w, Next(w, e), e.h, w.hs[e.h].(role := Phone(w.tables.nextID + 1), pc := Announcing));
    } else if e.UnregisterIt? {
      UnregisterKeeps(w, Next(w, e), e.h, w.hs[e.h].(pc := Closed));
    } else {
      RegistryOtherwise(w, e);
    }
  }

  // ---- What handlers remember of the registry ----

  /** Exactly the phones have a control stream. */
  ghost predicate StreamsExist(w: World) {
    forall c :: c in w.ctl <==> c in w.hs && w.hs[c].role.Phone?
  }

  lemma StreamsExistStep(w: World, e: Event)
    requires Ready(w, e) && StreamsExist(w)
    ensures StreamsExist(Next(w, e))
  {
    hide Obeys;
    if !e.RegisterIt? && !e.UnregisterIt? {
      RolesOfPhones(w, e);
    }
  }

  /** A remembered phone is the one connection that ever had that id, and the connection found
      under the id later is the one that was seen with it. */
  ghost predicate Remembers(w: World, x: Handler) {
    match x.pc
    case Parking(id, seen) => seen.Some? && IsPhone(w, seen.value, id)
    case Finding(id, seen) => seen.Some? && IsPhone(w, seen.value, id)
    case Notifying(sc, seen) => seen == Some(sc) && sc in w.ctl
    case LegacyNotifying(sc) => sc in w.ctl
    case _ => true
  }

  ghost predicate MemoryOk(w: World) {
    forall h :: h in w.hs ==> Remembers(w, w.hs[h])
  }

  /** Phones and their streams never go away. */
  ghost predicate Grows(w: World, v: World) {
    && w.ctl.Keys <= v.ctl.Keys
    && w.hs.Keys <= v.hs.Keys
    && (forall c :: c in w.hs && w.hs[c].role.Phone? ==> v.hs[c].role == w.hs[c].role)
  }

  lemma WorldGrows(w: World, e: Event)
    requires Ready(w, e)
    ensures Grows(w, Next(w, e))
  {
    hide Obeys;
    if !e.RegisterIt? && !e.UnregisterIt? {
      RolesOfPhones(w, e);
    }
  }

  lemma FindsTheSame(w: World, id: string, seen: Conn)
    requires RegistryOk(w) && IsPhone(w, seen, id) && id in w.tables.ctrl
    ensures w.tables.ctrl[id] == seen
  {
    PhoneIdInjective(w.hs[seen].role.k, w.hs[w.tables.ctrl[id]].role.k);
  }

  lemma RemembersStep(w: World, e: Event)
    requires Ready(w, e)
    requires RegistryOk(w) && (e.Accept? || Remembers(w, w.hs[e.h])) && StreamsExist(w)
    ensures Remembers(w, Move(w, e))
  {
    hide Obeys;
    if e.Find? {
      var x := w.hs[e.h];
      if x.pc.phone in w.tables.ctrl {
        FindsTheSame(w, x.pc.phone, x.pc.seen.value);
      }
    } else if !e.ReadLast? && !e.ParkIt? && !e.LegacyFind? {
      OthersForget(w, e);
    }
  }

  lemma OthersForget(w: World, e: Event)
    requires Enabled(w, e) && !e.ReadLast? && !e.ParkIt? && !e.Find? && !e.LegacyFind?
    ensures var pc := Move(w, e).pc;
            !pc.Parking? && !pc.Finding? && !pc.Notifying? && !pc.LegacyNotifying?
  {
    hide Obeys;
  }

  lemma RemembersGrows(w: World, v: World, x: Handler)
    requires Remembers(w, x) && Grows(w, v)
    ensures Remembers(v, x)
  {
  }

  lemma MemoryStep(w: World, e: Event)
    requires Ready(w, e)
    requires RegistryOk(w) && MemoryOk(w) && StreamsExist(w)
    ensures MemoryOk(Next(w, e))
  {
    var v := Next(w, e);
    RemembersStep(w, e);
    WorldGrows(w, e);
    forall h | h in v.hs ensures Remembers(v, v.hs[h]) {
      RemembersGrows(w, v, v.hs[h]);
    }
  }
}
