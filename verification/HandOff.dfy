/** No hand-off gets lost: what becomes of a waiting SOCKS5 client's channel. */
module HandOff {
  import opened Text
  import opened Control
  import opened RelayTables
  import opened Rendezvous
  import opened RendezvousInv
  import opened Pairing
  import opened Crosstalk

  /** A SOCKS5 handler between parking and the end of its wait. */
  predicate IsWaiting(x: Handler) {
    x.role.Client? && 0 < x.issued && MayBeInWait(x)
  }

  predicate InWait(w: World, h: Conn) {
    h in w.hs && Waiter(w.tables, ClientId(w.hs[h].issued)) == Some(WaitEntry(h, h))
  }

  ghost predicate IsClaimed(w: World, h: Conn) {
    exists d :: d in w.hs && w.hs[d].pc == Sending(h)
  }

  /** The channel of `h` is parked, claimed, or holds a data connection. */
  ghost predicate InHand(w: World, h: Conn) {
    InWait(w, h) || IsClaimed(w, h) || Arrived(w, h)
  }

  /** The step is a legacy client parking on the entry of `h`. */
  predicate Overwrites(w: World, e: Event, h: Conn) {
    e.LegacyPark? && e.h in w.hs && InWait(w, h) && w.hs[e.h].role == Legacy(ClientId(w.hs[h].issued))
  }

  /** The three places exclude each other, the channel sits in `wait` under no other key, and
      at most one data handler is on its way to it. */
  lemma OnePlace(w: World, h: Conn)
    requires PairingOk(w)
    ensures InWait(w, h) ==> !IsClaimed(w, h) && !Arrived(w, h)
    ensures IsClaimed(w, h) ==> !Arrived(w, h)
    ensures forall d, g :: d in w.hs && g in w.hs && w.hs[d].pc == Sending(h) && w.hs[g].pc == Sending(h) ==> d == g
    ensures h in w.hs && IsWaiting(w.hs[h]) ==>
              forall id :: id in w.tables.wait && w.tables.wait[id].dataCh == h ==> id == ClientId(w.hs[h].issued)
  {
  }

  lemma AsideInHand(w: World, v: World, g: Conn, y: Handler, h: Conn)
    requires Aside(w, v, g, y) && h in w.hs
    ensures InHand(v, h) <==> InHand(w, h)
  {
    ClaimedSame(w, v, g, y, h);
  }

  /** A handler that is not sending before or after its move claims nothing. */
  lemma ClaimedSame(w: World, v: World, g: Conn, y: Handler, h: Conn)
    requires v.hs == w.hs[g := y] && !y.pc.Sending? && (g in w.hs ==> !w.hs[g].pc.Sending?)
    ensures IsClaimed(v, h) <==> IsClaimed(w, h)
  {
    if IsClaimed(w, h) {
      var d :| d in w.hs && w.hs[d].pc == Sending(h);
      assert v.hs[d].pc == Sending(h);
    }
    if IsClaimed(v, h) {
      var d :| d in v.hs && v.hs[d].pc == Sending(h);
      assert w.hs[d].pc == Sending(h);
    }
  }

  lemma ParkInWait(w: World, v: World, g: Conn, y: Handler, id: string, h: Conn)
    requires Parks(w, v, g, y, id) && h in w.hs && h != g
    ensures InWait(v, h) <==> InWait(w, h) && id != ClientId(w.hs[h].issued)
    ensures Arrived(v, h) <==> Arrived(w, h)
  {
  }

  lemma ParkInHand(w: World, v: World, g: Conn, y: Handler, id: string, h: Conn)
    requires PairingOk(w) && Parks(w, v, g, y, id)
    requires h in w.hs && h != g && IsWaiting(w.hs[h])
    ensures InHand(v, h) <==> InHand(w, h) && !(InWait(w, h) && id == ClientId(w.hs[h].issued))
  {
    hide InWait, IsClaimed, Arrived, PairingOk;
    OnePlace(w, h);
    ParkInWait(w, v, g, y, id, h);
    ClaimedSame(w, v, g, y, h);
  }

  /** Claims by handlers that do not claim `h` are the same before and after. */
  lemma ClaimedElsewhere(w: World, v: World, d: Conn, y: Handler, h: Conn)
    requires v.hs == w.hs[d := y] && d in w.hs && y.pc != Sending(h) && w.hs[d].pc != Sending(h)
    ensures IsClaimed(v, h) <==> IsClaimed(w, h)
  {
    if IsClaimed(w, h) {
      var g :| g in w.hs && w.hs[g].pc == Sending(h);
      assert v.hs[g].pc == Sending(h);
    }
    if IsClaimed(v, h) {
      var g :| g in v.hs && v.hs[g].pc == Sending(h);
      assert w.hs[g].pc == Sending(h);
    }
  }

  lemma ClaimInHand(w: World, v: World, d: Conn, h: Conn)
    requires WaitOk(w) && Claims(w, v, d) && h in w.hs && IsWaiting(w.hs[h]) && h != d
    ensures InHand(v, h) <==> InHand(w, h)
  {
    var entry := Waiter(w.tables, w.hs[d].role.id);
    if entry.Some? && entry.value.dataCh == h {
      assert v.hs[d].pc == Sending(h);
      assert InWait(w, h);
    } else {
      ClaimedElsewhere(w, v, d, v.hs[d], h);
    }
  }

  lemma SendInHand(w: World, v: World, d: Conn, c: Conn, h: Conn)
    requires Sends(w, v, d, c) && h in w.hs && h != d
    ensures InHand(v, h) <==> InHand(w, h)
  {
    if c != h {
      ClaimedElsewhere(w, v, d, v.hs[d], h);
    } else {
      assert IsClaimed(w, h) && Arrived(v, h);
    }
  }

  lemma UnparkInHand(w: World, v: World, g: Conn, y: Handler, h: Conn)
    requires PairingOk(w) && Unparks(w, v, g, y) && h in w.hs && IsWaiting(w.hs[h]) && h != g
    ensures InHand(v, h) <==> InHand(w, h)
  {
    ClaimedSame(w, v, g, y, h);
    if ClientId(w.hs[g].issued) == ClientId(w.hs[h].issued) {
      ClientIdInjective(w.hs[g].issued, w.hs[h].issued);
    }
  }

  lemma ReceiveInHand(w: World, v: World, g: Conn, y: Handler, h: Conn)
    requires Receives(w, v, g, y) && h in w.hs && h != g
    ensures InHand(v, h) <==> InHand(w, h)
  {
    ClaimedSame(w, v, g, y, h);
  }

  lemma StillWaiting(w: World, e: Event)
    requires Ready(w, e) && !e.Accept? && IsWaiting(w.hs[e.h]) && IsWaiting(Move(w, e))
    ensures !PairingEvent(e)
  {
  }

  /** A waiting client stays in hand exactly when no legacy client parks on its entry, and a
      lost one is never found again. */
  lemma HandOffStep(w: World, e: Event, h: Conn)
    requires Ready(w, e) && PairingOk(w)
    requires h in w.hs && IsWaiting(w.hs[h]) && IsWaiting(Next(w, e).hs[h])
    ensures InHand(Next(w, e), h) <==> InHand(w, h) && !Overwrites(w, e, h)
  {
    hide Obeys, InHand, PairingOk, HandlerOk;
    if h == e.h {
      StillWaiting(w, e);
      OtherHandOffStep(w, e, h);
    } else if e.ParkIt? {
      ParkItStep(w, e, h);
    } else if e.LegacyPark? {
      LegacyParkStep(w, e, h);
    } else if e.ClaimIt? || e.Send? {
      DataStep(w, e, h);
    } else if e.UnparkIt? {
      UnparkItStep(w, e, h);
    } else {
      OtherHandOffStep(w, e, h);
    }
  }

  /** The next client number is nobody's yet. */
  lemma FreshClientId(w: World, h: Conn)
    requires PairingOk(w) && h in w.hs
    ensures ClientId(w.tables.connCID + 1) != ClientId(w.hs[h].issued)
  {
    if ClientId(w.tables.connCID + 1) == ClientId(w.hs[h].issued) {
      ClientIdInjective(w.tables.connCID + 1, w.hs[h].issued);
    }
  }

  lemma ParkItStep(w: World, e: Event, h: Conn)
    requires e.ParkIt? && Ready(w, e) && PairingOk(w)
    requires h in w.hs && h != e.h && IsWaiting(w.hs[h])
    ensures InHand(Next(w, e), h) <==> InHand(w, h)
  {
    hide InHand, PairingOk, Parks, HandlerOk;
    var id := ClientId(w.tables.connCID + 1);
    ParkKind(w, e, id);
    ParkInHand(w, Next(w, e), e.h, Move(w, e), id, h);
    FreshClientId(w, h);
  }

  lemma LegacyParkStep(w: World, e: Event, h: Conn)
    requires e.LegacyPark? && Ready(w, e) && PairingOk(w)
    requires h in w.hs && h != e.h && IsWaiting(w.hs[h])
    ensures InHand(Next(w, e), h) <==> InHand(w, h) && !Overwrites(w, e, h)
  {
    ParkKind(w, e, w.hs[e.h].role.id);
    ParkInHand(w, Next(w, e), e.h, Move(w, e), w.hs[e.h].role.id, h);
  }

  lemma DataStep(w: World, e: Event, h: Conn)
    requires (e.ClaimIt? || e.Send?) && Ready(w, e) && PairingOk(w)
    requires h in w.hs && h != e.h && IsWaiting(w.hs[h])
    ensures InHand(Next(w, e), h) <==> InHand(w, h)
  {
    if e.ClaimIt? {
      ClaimKind(w, e);
      ClaimInHand(w, Next(w, e), e.h, h);
    } else {
      SendKind(w, e);
      SendInHand(w, Next(w, e), e.h, w.hs[e.h].pc.ch, h);
    }
  }

  lemma UnparkItStep(w: World, e: Event, h: Conn)
    requires e.UnparkIt? && Ready(w, e) && PairingOk(w)
    requires h in w.hs && h != e.h && IsWaiting(w.hs[h])
    ensures InHand(Next(w, e), h) <==> InHand(w, h)
  {
    UnparkKind(w, e);
    UnparkInHand(w, Next(w, e), e.h, Move(w, e), h);
  }

  lemma OtherHandOffStep(w: World, e: Event, h: Conn)
    requires Ready(w, e) && (PairingEvent(e) ==> (e.Receive? || e.LegacyReceive?) && h != e.h)
    requires h in w.hs
    ensures InHand(Next(w, e), h) <==> InHand(w, h)
  {
    if PairingEvent(e) {
      ReceiveKind(w, e);
      ReceiveInHand(w, Next(w, e), e.h, Move(w, e), h);
    } else {
      OtherMovesAside(w, e);
      AsideInHand(w, Next(w, e), e.h, Move(w, e), h);
    }
  }

  /** A handler that parks is in hand at once. */
  lemma ParkedInHand(w: World, e: Event)
    requires Ready(w, e) && PairingOk(w) && (e.Accept? || !IsWaiting(w.hs[e.h])) && IsWaiting(Move(w, e))
    ensures InHand(Next(w, e), e.h)
  {
    OnlyParkingWaits(w, e);
  }

  lemma OnlyParkingWaits(w: World, e: Event)
    requires Ready(w, e) && (e.Accept? || !IsWaiting(w.hs[e.h])) && IsWaiting(Move(w, e))
    ensures e.ParkIt? && w.hs[e.h].issued == 0
  {
    hide Obeys;
  }

  ghost predicate HandOffsOk(w: World) {
    forall h :: h in w.hs && IsWaiting(w.hs[h]) ==> InHand(w, h)
  }

  lemma NoOverwrite(w: World, e: Event, h: Conn)
    requires Ready(w, e) && PairingOk(w) && StreamsExist(w) && KeysApart(w) && h in w.hs && IsWaiting(w.hs[h])
    ensures !Overwrites(w, e, h)
  {
    assert IssuedId(w, ClientId(w.hs[h].issued));
  }

  lemma HandOffsStep(w: World, e: Event)
    requires Ready(w, e) && PairingOk(w) && StreamsExist(w) && KeysApart(w) && HandOffsOk(w)
    ensures HandOffsOk(Next(w, e))
  {
    var v := Next(w, e);
    forall h | h in v.hs && IsWaiting(v.hs[h]) ensures InHand(v, h) {
      if h in w.hs && IsWaiting(w.hs[h]) {
        NoOverwrite(w, e, h);
        HandOffStep(w, e, h);
      } else {
        ParkedInHand(w, e);
      }
    }
  }
}
