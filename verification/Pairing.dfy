/** Pairing clients with data connections: every channel is sent to at most once, every data
    connection is sent at most once, and only under the number its client drew. */
module Pairing {
  import opened Text
  import opened Control
  import opened RelayTables
  import opened Rendezvous
  import opened RendezvousInv

  /** The handler has made its channel. */
  predicate HasChan(x: Handler) {
    0 < x.issued || (x.role.Legacy? && !x.pc.LegacyParking?)
  }

  /** The handler's channel may still be in `wait`.  A SOCKS5 handler takes its entry out
      before it replies; a legacy handler never does. */
  predicate MayBeInWait(x: Handler) {
    if x.role.Client? then x.pc.Finding? || x.pc.Notifying? || x.pc.Waiting? || x.pc.Unparking?
    else x.role.Legacy? && !x.pc.LegacyParking?
  }

  /** The key a parked handler's entry sits under. */
  predicate KeyOf(x: Handler, id: string) {
    (x.role.Client? ==> id == ClientId(x.issued)) && (x.role.Legacy? ==> id == x.role.id)
  }

  /** Client numbers are drawn in order and never twice. */
  ghost predicate NumbersOk(w: World) {
    && (forall h :: h in w.hs ==> w.hs[h].issued <= w.tables.connCID)
    && (forall h, g :: h in w.hs && g in w.hs && 0 < w.hs[h].issued == w.hs[g].issued ==> h == g)
  }

  ghost predicate ChansOk(w: World) {
    && (forall c :: c in w.chans <==> c in w.hs && HasChan(w.hs[c]))
    && (forall c :: c in w.chans ==>
          && |w.chans[c].sent| <= 1
          && match w.hs[c].got
             case None => w.chans[c].held == w.chans[c].sent
             case Some(d) => w.chans[c] == Chan([], [d]))
  }

  ghost predicate WaitOk(w: World) {
    forall id :: id in w.tables.wait ==>
      var c := w.tables.wait[id].dataCh;
      && w.tables.wait[id].client == c && c in w.chans && c in w.hs
      && w.chans[c].sent == [] && MayBeInWait(w.hs[c]) && KeyOf(w.hs[c], id)
  }

  /** A channel sits in `wait` under one key only. */
  lemma WaitInjective(w: World, i: string, j: string)
    requires WaitOk(w) && i in w.tables.wait && j in w.tables.wait
    requires w.tables.wait[i].dataCh == w.tables.wait[j].dataCh
    ensures i == j
  {
    assert MayBeInWait(w.hs[w.tables.wait[i].dataCh]);
  }

  /** Data connection `d` was taken for channel `c` under the key of its maker. */
  ghost predicate TakenFor(w: World, d: Conn, c: Conn) {
    d in w.hs && c in w.hs && w.hs[d].role.Data? && KeyOf(w.hs[c], w.hs[d].role.id)
  }

  /** A claimed channel is out of `wait`, still unsent, and claimed by one handler. */
  ghost predicate ClaimsOk(w: World) {
    && (forall d :: d in w.hs && w.hs[d].pc.Sending? ==>
          var c := w.hs[d].pc.ch;
          && c in w.chans && w.chans[c].sent == [] && TakenFor(w, d, c)
          && forall id :: id in w.tables.wait ==> w.tables.wait[id].dataCh != c)
    && (forall d, g :: d in w.hs && g in w.hs && w.hs[d].pc.Sending? && w.hs[d].pc == w.hs[g].pc ==> d == g)
  }

  /** What went through a channel was taken for it, and its handler gave it to no other. */
  ghost predicate SentOk(w: World) {
    forall c :: c in w.chans && w.chans[c].sent != [] ==> SentTo(w, c)
  }

  ghost predicate SentTo(w: World, c: Conn)
    requires c in w.chans && w.chans[c].sent != []
  {
    var d := w.chans[c].sent[0];
    TakenFor(w, d, c) && w.hs[d].pc == Closed && w.hs[d].gave == Some(c)
  }

  ghost predicate PairingOk(w: World) {
    NumbersOk(w) && ChansOk(w) && WaitOk(w) && ClaimsOk(w) && SentOk(w)
  }

  // ---- The kinds of step, by what they do to `wait` and the channels ----

  /** Handler `h` moves to `y` without parking, claiming, sending, receiving or leaving `wait`. */
  ghost predicate Aside(w: World, v: World, h: Conn, y: Handler) {
    && v.hs == w.hs[h := y] && v.chans == w.chans
    && v.tables.wait == w.tables.wait && v.tables.connCID == w.tables.connCID
    && !y.pc.Sending?
    && if h !in w.hs then !HasChan(y) && y.issued == 0 && y.got.None?
       else
         var x := w.hs[h];
         && !x.pc.Sending? && !x.pc.Closed?
         && y.issued == x.issued && y.got == x.got && y.gave == x.gave
         && (HasChan(y) <==> HasChan(x)) && (HasChan(x) ==> y.role == x.role)
         && (MayBeInWait(x) ==> MayBeInWait(y))
  }

  /** A handler parks under `id`; whatever entry was there is overwritten. */
  ghost predicate Parks(w: World, v: World, h: Conn, y: Handler, id: string) {
    && h in w.hs && !HasChan(w.hs[h]) && !w.hs[h].pc.Sending? && !w.hs[h].pc.Closed?
    && v.hs == w.hs[h := y] && v.chans == w.chans[h := Chan([], [])]
    && v.tables.wait == w.tables.wait[id := WaitEntry(h, h)]
    && HasChan(y) && MayBeInWait(y) && KeyOf(y, id) && y.got.None? && !y.pc.Sending?
    && if y.issued == 0 then v.tables.connCID == w.tables.connCID
       else v.tables.connCID == w.tables.connCID + 1 == y.issued
  }

  /** A claim takes the entry, if there is one, and its channel is promised to the claimer. */
  ghost predicate Claims(w: World, v: World, d: Conn) {
    && d in w.hs && w.hs[d].role.Data? && w.hs[d].pc.Claiming? && w.hs[d].issued == 0 && w.hs[d].got.None?
    && v.chans == w.chans && v.tables == Unpark(w.tables, w.hs[d].role.id)
    && var entry := Waiter(w.tables, w.hs[d].role.id);
       v.hs == w.hs[d := w.hs[d].(pc := if entry.Some? then Sending(entry.value.dataCh) else Closed)]
  }

  ghost predicate Sends(w: World, v: World, d: Conn, c: Conn) {
    && d in w.hs && w.hs[d].pc == Sending(c) && w.hs[d].issued == 0 && c in w.chans
    && v.hs == w.hs[d := w.hs[d].(gave := Some(c), pc := Closed)] && v.tables == w.tables
    && v.chans == w.chans[c := Chan(w.chans[c].held + [d], w.chans[c].sent + [d])]
  }

  ghost predicate Receives(w: World, v: World, h: Conn, y: Handler) {
    && h in w.hs && Arrived(w, h) && !w.hs[h].pc.Sending? && !w.hs[h].pc.Closed?
    && y.got == Some(w.chans[h].held[0]) && y.role == w.hs[h].role && y.issued == w.hs[h].issued
    && !y.pc.Sending? && HasChan(y)
    && v.hs == w.hs[h := y] && v.tables == w.tables
    && v.chans == w.chans[h := w.chans[h].(held := w.chans[h].held[1..])]
  }

  /** Removing the entry under a client's own number takes its channel out for good. */
  ghost predicate Unparks(w: World, v: World, h: Conn, y: Handler) {
    && h in w.hs && w.hs[h].role.Client? && w.hs[h].pc.Unparking? && 0 < w.hs[h].issued
    && y == w.hs[h].(pc := y.pc) && y.pc.Replying?
    && v.hs == w.hs[h := y] && v.chans == w.chans
    && v.tables == Unpark(w.tables, ClientId(w.hs[h].issued))
  }

  // ---- Each kind keeps the invariant: entries first, then claims and what was sent ----

  lemma AsideNumbers(w: World, v: World, h: Conn, y: Handler)
    requires NumbersOk(w) && Aside(w, v, h, y)
    ensures NumbersOk(v)
  {
  }

  lemma AsideChans(w: World, v: World, h: Conn, y: Handler)
    requires ChansOk(w) && Aside(w, v, h, y)
    ensures ChansOk(v)
  {
  }

  lemma AsideWait(w: World, v: World, h: Conn, y: Handler)
    requires ChansOk(w) && WaitOk(w) && Aside(w, v, h, y)
    ensures WaitOk(v)
  {
  }

  lemma AsideClaims(w: World, v: World, h: Conn, y: Handler)
    requires ChansOk(w) && ClaimsOk(w) && Aside(w, v, h, y)
    ensures ClaimsOk(v)
  {
  }

  lemma AsideSent(w: World, v: World, h: Conn, y: Handler)
    requires ChansOk(w) && SentOk(w) && Aside(w, v, h, y)
    ensures SentOk(v)
  {
  }

  lemma ParkNumbers(w: World, v: World, h: Conn, y: Handler, id: string)
    requires NumbersOk(w) && Parks(w, v, h, y, id)
    ensures NumbersOk(v)
  {
  }

  lemma ParkChans(w: World, v: World, h: Conn, y: Handler, id: string)
    requires ChansOk(w) && Parks(w, v, h, y, id)
    ensures ChansOk(v)
  {
  }

  lemma ParkWait(w: World, v: World, h: Conn, y: Handler, id: string)
    requires ChansOk(w) && WaitOk(w) && Parks(w, v, h, y, id)
    ensures WaitOk(v)
  {
  }

  lemma ParkClaims(w: World, v: World, h: Conn, y: Handler, id: string)
    requires ChansOk(w) && ClaimsOk(w) && Parks(w, v, h, y, id)
    ensures ClaimsOk(v)
  {
  }

  lemma ParkSent(w: World, v: World, h: Conn, y: Handler, id: string)
    requires ChansOk(w) && SentOk(w) && Parks(w, v, h, y, id)
    ensures SentOk(v)
  {
  }

  lemma ClaimNumbers(w: World, v: World, d: Conn)
    requires NumbersOk(w) && Claims(w, v, d)
    ensures NumbersOk(v)
  {
  }

  lemma ClaimChans(w: World, v: World, d: Conn)
    requires ChansOk(w) && Claims(w, v, d)
    ensures ChansOk(v)
  {
  }

  lemma ClaimWait(w: World, v: World, d: Conn)
    requires ChansOk(w) && WaitOk(w) && Claims(w, v, d)
    ensures WaitOk(v)
  {
  }

  lemma ClaimClaims(w: World, v: World, d: Conn)
    requires WaitOk(w) && ChansOk(w) && ClaimsOk(w) && Claims(w, v, d)
    ensures ClaimsOk(v)
  {
  }

  lemma ClaimSent(w: World, v: World, d: Conn)
    requires ChansOk(w) && SentOk(w) && Claims(w, v, d)
    ensures SentOk(v)
  {
  }

  lemma SendNumbers(w: World, v: World, d: Conn, c: Conn)
    requires NumbersOk(w) && Sends(w, v, d, c)
    ensures NumbersOk(v)
  {
  }

  lemma SendChans(w: World, v: World, d: Conn, c: Conn)
    requires ChansOk(w) && ClaimsOk(w) && Sends(w, v, d, c)
    ensures ChansOk(v)
  {
  }

  lemma SendWait(w: World, v: World, d: Conn, c: Conn)
    requires ChansOk(w) && ClaimsOk(w) && WaitOk(w) && Sends(w, v, d, c)
    ensures WaitOk(v)
  {
  }

  lemma SendClaims(w: World, v: World, d: Conn, c: Conn)
    requires ChansOk(w) && ClaimsOk(w) && Sends(w, v, d, c)
    ensures ClaimsOk(v)
  {
  }

  lemma SendSent(w: World, v: World, d: Conn, c: Conn)
    requires ChansOk(w) && ClaimsOk(w) && SentOk(w) && Sends(w, v, d, c)
    ensures SentOk(v)
  {
    forall b | b in v.chans && v.chans[b].sent != [] ensures SentTo(v, b) {
      if b == c {
        assert v.chans[b].sent == [d];
      } else {
        SentElsewhere(w, v, d, c, b);
      }
    }
  }

  lemma SentElsewhere(w: World, v: World, d: Conn, c: Conn, b: Conn)
    requires ChansOk(w) && SentOk(w) && Sends(w, v, d, c) && b != c && b in v.chans && v.chans[b].sent != []
    ensures SentTo(v, b)
  {
    assert SentTo(w, b);
  }

  lemma ReceiveNumbers(w: World, v: World, h: Conn, y: Handler)
    requires NumbersOk(w) && Receives(w, v, h, y)
    ensures NumbersOk(v)
  {
  }

  lemma ReceiveChans(w: World, v: World, h: Conn, y: Handler)
    requires ChansOk(w) && Receives(w, v, h, y)
    ensures ChansOk(v)
  {
  }

  lemma ReceiveWait(w: World, v: World, h: Conn, y: Handler)
    requires ChansOk(w) && WaitOk(w) && Receives(w, v, h, y)
    ensures WaitOk(v)
  {
  }

  lemma ReceiveClaims(w: World, v: World, h: Conn, y: Handler)
    requires ChansOk(w) && ClaimsOk(w) && Receives(w, v, h, y)
    ensures ClaimsOk(v)
  {
  }

  lemma ReceiveSent(w: World, v: World, h: Conn, y: Handler)
    requires ChansOk(w) && SentOk(w) && Receives(w, v, h, y)
    ensures SentOk(v)
  {
  }

  lemma UnparkNumbers(w: World, v: World, h: Conn, y: Handler)
    requires NumbersOk(w) && Unparks(w, v, h, y)
    ensures NumbersOk(v)
  {
  }

  lemma UnparkChans(w: World, v: World, h: Conn, y: Handler)
    requires ChansOk(w) && Unparks(w, v, h, y)
    ensures ChansOk(v)
  {
  }

  lemma UnparkWait(w: World, v: World, h: Conn, y: Handler)
    requires ChansOk(w) && WaitOk(w) && Unparks(w, v, h, y)
    ensures WaitOk(v)
  {
  }

  lemma UnparkClaims(w: World, v: World, h: Conn, y: Handler)
    requires ChansOk(w) && ClaimsOk(w) && Unparks(w, v, h, y)
    ensures ClaimsOk(v)
  {
  }

  lemma UnparkSent(w: World, v: World, h: Conn, y: Handler)
    requires ChansOk(w) && SentOk(w) && Unparks(w, v, h, y)
    ensures SentOk(v)
  {
  }

  // ---- Every step is of one of these kinds ----

  predicate PairingEvent(e: Event) {
    e.ParkIt? || e.LegacyPark? || e.ClaimIt? || e.Send? || e.Receive? || e.LegacyReceive? || e.UnparkIt?
  }

  lemma OtherTablesStand(w: World, e: Event)
    requires Enabled(w, e) && !PairingEvent(e)
    ensures NextTables(w, e).wait == w.tables.wait && NextTables(w, e).connCID == w.tables.connCID
    ensures NextChans(w, e) == w.chans
  {
  }

  lemma OtherMovesAside(w: World, e: Event)
    requires Ready(w, e) && !PairingEvent(e)
    ensures Aside(w, Next(w, e), e.h, Move(w, e))
  {
    hide Obeys;
    OtherTablesStand(w, e);
  }

  lemma OtherKeepsPairing(w: World, e: Event)
    requires Ready(w, e) && !PairingEvent(e) && PairingOk(w)
    ensures PairingOk(Next(w, e))
  {
    OtherMovesAside(w, e);
    var v, y := Next(w, e), Move(w, e);
    AsideNumbers(w, v, e.h, y);
    AsideChans(w, v, e.h, y);
    AsideWait(w, v, e.h, y);
    AsideClaims(w, v, e.h, y);
    AsideSent(w, v, e.h, y);
  }

  lemma ParkKind(w: World, e: Event, id: string)
    requires (e.ParkIt? || e.LegacyPark?) && Ready(w, e)
    requires id == if e.ParkIt? then ClientId(w.tables.connCID + 1) else w.hs[e.h].role.id
    ensures Parks(w, Next(w, e), e.h, Move(w, e), id)
  {
  }

  lemma ParkKeepsPairing(w: World, e: Event, id: string)
    requires (e.ParkIt? || e.LegacyPark?) && Ready(w, e) && PairingOk(w)
    requires id == if e.ParkIt? then ClientId(w.tables.connCID + 1) else w.hs[e.h].role.id
    ensures PairingOk(Next(w, e))
  {
    var v, y := Next(w, e), Move(w, e);
    ParkKind(w, e, id);
    ParkNumbers(w, v, e.h, y, id);
    ParkChans(w, v, e.h, y, id);
    ParkWait(w, v, e.h, y, id);
    ParkClaims(w, v, e.h, y, id);
    ParkSent(w, v, e.h, y, id);
  }

  lemma ClaimKind(w: World, e: Event)
    requires e.ClaimIt? && Ready(w, e)
    ensures Claims(w, Next(w, e), e.h)
  {
  }

  lemma ClaimKeepsPairing(w: World, e: Event)
    requires Ready(w, e) && PairingOk(w) && e.ClaimIt?
    ensures PairingOk(Next(w, e))
  {
    var v := Next(w, e);
    ClaimKind(w, e);
    ClaimNumbers(w, v, e.h);
    ClaimChans(w, v, e.h);
    ClaimWait(w, v, e.h);
    ClaimClaims(w, v, e.h);
    ClaimSent(w, v, e.h);
  }

  lemma SendKind(w: World, e: Event)
    requires e.Send? && Ready(w, e)
    ensures Sends(w, Next(w, e), e.h, w.hs[e.h].pc.ch)
  {
  }

  lemma SendKeepsPairing(w: World, e: Event)
    requires Ready(w, e) && PairingOk(w) && e.Send?
    ensures PairingOk(Next(w, e))
  {
    var v, c := Next(w, e), w.hs[e.h].pc.ch;
    SendKind(w, e);
    SendNumbers(w, v, e.h, c);
    SendChans(w, v, e.h, c);
    SendWait(w, v, e.h, c);
    SendClaims(w, v, e.h, c);
    SendSent(w, v, e.h, c);
  }

  lemma ReceiveKind(w: World, e: Event)
    requires (e.Receive? || e.LegacyReceive?) && Ready(w, e)
    ensures Receives(w, Next(w, e), e.h, Move(w, e))
  {
  }

  lemma ReceiveKeepsPairing(w: World, e: Event)
    requires (e.Receive? || e.LegacyReceive?) && Ready(w, e) && PairingOk(w)
    ensures PairingOk(Next(w, e))
  {
    var v, y := Next(w, e), Move(w, e);
    ReceiveKind(w, e);
    ReceiveNumbers(w, v, e.h, y);
    ReceiveChans(w, v, e.h, y);
    ReceiveWait(w, v, e.h, y);
    ReceiveClaims(w, v, e.h, y);
    ReceiveSent(w, v, e.h, y);
  }

  lemma UnparkKind(w: World, e: Event)
    requires e.UnparkIt? && Ready(w, e)
    ensures Unparks(w, Next(w, e), e.h, Move(w, e))
  {
  }

  lemma UnparkKeepsPairing(w: World, e: Event)
    requires Ready(w, e) && PairingOk(w) && e.UnparkIt?
    ensures PairingOk(Next(w, e))
  {
    var v, y := Next(w, e), Move(w, e);
    UnparkKind(w, e);
    UnparkNumbers(w, v, e.h, y);
    UnparkChans(w, v, e.h, y);
    UnparkWait(w, v, e.h, y);
    UnparkClaims(w, v, e.h, y);
    UnparkSent(w, v, e.h, y);
  }

  lemma PairingStep(w: World, e: Event)
    requires Ready(w, e) && PairingOk(w)
    ensures PairingOk(Next(w, e))
  {
    if e.ParkIt? || e.LegacyPark? {
      ParkKeepsPairing(w, e, if e.ParkIt? then ClientId(w.tables.connCID + 1) else w.hs[e.h].role.id);
    } else if e.ClaimIt? {
      ClaimKeepsPairing(w, e);
    } else if e.Send? {
      SendKeepsPairing(w, e);
    } else if e.Receive? || e.LegacyReceive? {
      ReceiveKeepsPairing(w, e);
    } else if e.UnparkIt? {
      UnparkKeepsPairing(w, e);
    } else {
      OtherKeepsPairing(w, e);
    }
  }
}
