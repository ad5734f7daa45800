/** The three SOCKS5 handshakes of the programs: the relay's over a buffered reader, the
    proxy's in one reused buffer, and the tunnel's with fresh slices after a first read. */
module Parsers {
  import opened Text
  import opened Streams
  import opened Socks5

  // ---- The relay (cmd/relay) ----

  /** readAddr: None for an unknown type or a stream that ends too early. */
  method ReadAddr(r: BufReader<Byte>, atyp: Byte) returns (addr: Option<seq<Byte>>)
    requires r.Valid()
    modifies r`buf, r.src`inbox
    ensures r.Valid()
    ensures addr.None? ==> DecodeAddress(atyp, old(r.Stream())) == Fails(BadAddress)
    ensures addr.Some? ==>
              DecodeAddress(atyp, old(r.Stream())) == DecodeFields(atyp, addr.value + r.Stream(), |addr.value|)
  {
    var ok, b;
    ghost var s := r.Stream();
    if atyp == IPV4 {
      ok, b := r.ReadFull(4);
    } else if atyp == DOMAIN {
      ok, b := r.ReadFull(1);
      if ok {
        ok, b := r.ReadFull(b[0]);
      }
      assert ok ==> s[1..] == b + r.Stream();
    } else if atyp == IPV6 {
      ok, b := r.ReadFull(16);
    } else {
      ok, b := false, [];
    }
    assert ok && atyp != DOMAIN ==> s == b + r.Stream();
    addr := if ok then Some(b) else None;
  }

  /** readPort */
  method ReadPort(r: BufReader<Byte>) returns (port: Option<nat>)
    requires r.Valid()
    modifies r`buf, r.src`inbox
    ensures r.Valid()
    ensures port.None? ==> |old(r.Stream())| < 2
    ensures port.Some? ==> |old(r.Stream())| >= 2 && r.Stream() == old(r.Stream())[2..]
                           && port.value == Port(old(r.Stream())[0], old(r.Stream())[1])
  {
    var ok, b := r.ReadFull(2);
    port := if ok then Some(Port(b[0], b[1])) else None;
  }

  /** The greeting: version, method count, methods; answered without authentication. */
  method RelayGreeting(conn: Conn<Byte>, r: BufReader<Byte>) returns (ok: bool)
    requires r.Valid() && r.src == conn
    modifies r`buf, conn
    ensures r.Valid()
    ensures var s := old(r.Stream());
            if ok then Decode(s) == DecodeRequest(r.Stream()) else Decode(s) == Fails(ShortGreeting)
    ensures conn.outbox == old(conn.outbox) + Taken(if ok then METHOD_REPLY else [], old(conn.room))
    ensures conn.room == Left(if ok then METHOD_REPLY else [], old(conn.room))
  {
    ghost var s := r.Stream();
    var hdr, methods;
    ok, hdr := r.ReadFull(2);
    if !ok {
      return;
    }
    ok, methods := r.ReadFull(hdr[1]);
    if !ok {
      return;
    }
    assert r.Stream() == s[2 + s[1] as nat..];
    var _, _ := conn.Write(METHOD_REPLY);
  }

  /** The request after its 4 fixed bytes. */
  method ReadFields(r: BufReader<Byte>, atyp: Byte) returns (res: Outcome)
    requires r.Valid()
    modifies r`buf, r.src`inbox
    ensures r.Valid() && res == DecodeAddress(atyp, old(r.Stream())).outcome
    ensures res.Connect? ==> r.Stream() == DecodeAddress(atyp, old(r.Stream())).rest
    ensures res.Connect? || res.BadAddress?
  {
    var addr := ReadAddr(r, atyp);
    if addr.None? {
      return BadAddress;
    }
    ghost var t := addr.value + r.Stream();
    var n := |addr.value|;
    assert t[..n] == addr.value && t[n..] == r.Stream();
    var port := ReadPort(r);
    if port.None? {
      return BadAddress;
    }
    assert t[n + 2..] == r.Stream();
    return Connect(Request(atyp, addr.value, port.value));
  }

  /** The request. */
  method RelayRequest(conn: Conn<Byte>, r: BufReader<Byte>) returns (res: Outcome)
    requires r.Valid() && r.src == conn
    modifies r`buf, conn
    ensures r.Valid() && res == DecodeRequest(old(r.Stream())).outcome
    ensures res.Connect? ==> r.Stream() == DecodeRequest(old(r.Stream())).rest
    ensures conn.outbox == old(conn.outbox) + Taken(Refusal(res, true), old(conn.room))
    ensures conn.room == Left(Refusal(res, true), old(conn.room))
  {
    var ok, reqHdr := r.ReadFull(4);
    if !ok {
      return ShortRequest;
    }
    if reqHdr[1] != CONNECT {
      var _, _ := conn.Write(FinalReply(BAD_COMMAND));
      return BadCommand;
    }
    res := ReadFields(r, reqHdr[3]);
    if res.BadAddress? {
      var _, _ := conn.Write(FinalReply(BAD_ADDRESS));
    }
  }

  /** The handshake part of handleSOCKS5.  Errors of reply writes are ignored. */
  method RelayHandshake(conn: Conn<Byte>, r: BufReader<Byte>) returns (res: Outcome)
    requires r.Valid() && r.src == conn
    modifies r`buf, conn
    ensures r.Valid() && res == Decode(old(r.Stream())).outcome
    ensures res.Connect? ==> r.Stream() == Decode(old(r.Stream())).rest
    ensures conn.outbox == old(conn.outbox) + Taken(Replies(res, true), old(conn.room))
    ensures conn.room == Left(Replies(res, true), old(conn.room))
  {
    hide DecodeRequest;
    var ok := RelayGreeting(conn, r);
    if !ok {
      return ShortGreeting;
    }
    RequestIsNotGreeting(r.Stream());
    res := RelayRequest(conn, r);
    TakenJoin(METHOD_REPLY, Refusal(res, true), old(conn.room));
  }

  lemma RequestIsNotGreeting(s: seq<Byte>)
    ensures !DecodeRequest(s).outcome.ShortGreeting?
  {
  }

  /** A write after a write is one write of both, room permitting. */
  lemma TakenJoin(p: seq<Byte>, q: seq<Byte>, room: nat)
    ensures Taken(p, room) + Taken(q, Left(p, room)) == Taken(p + q, room)
    ensures Left(q, Left(p, room)) == Left(p + q, room)
  {
  }

  function Left(p: seq<Byte>, room: nat): nat {
    room - |Taken(p, room)|
  }

  // ---- The proxy (internal/proxy): one buffer of 257 bytes for everything ----

  /** The address: each read overwrites the front of `buf`, so the host is copied out and the
      domain length kept aside before the next one. */
  method ProxyAddr(conn: Conn<Byte>, buf: array<Byte>, atyp: Byte) returns (addr: Option<seq<Byte>>)
    requires conn.Valid() && buf.Length == 257
    modifies conn`inbox, buf
    ensures conn.Valid()
    ensures addr.None? ==> DecodeAddress(atyp, old(conn.Pending())) == Fails(BadAddress)
    ensures addr.Some? ==> DecodeAddress(atyp, old(conn.Pending()))
                           == DecodeFields(atyp, addr.value + conn.Pending(), |addr.value|)
  {
    ghost var s := conn.Pending();
    var ok, n := false, 0;
    if atyp == IPV4 {
      n := 4;
      ok := ReadFull(conn, buf, n);
    } else if atyp == DOMAIN {
      ok := ReadFull(conn, buf, 1);
      if ok {
        n := buf[..1][0];
        ok := ReadFull(conn, buf, n);
      }
      assert ok ==> s[1..] == buf[..n] + conn.Pending();
    } else if atyp == IPV6 {
      n := 16;
      ok := ReadFull(conn, buf, n);
    }
    assert ok && atyp != DOMAIN ==> s == buf[..n] + conn.Pending();
    addr := if ok then Some(buf[..n]) else None;
  }

  method ProxyFields(conn: Conn<Byte>, buf: array<Byte>, atyp: Byte) returns (res: Outcome)
    requires conn.Valid() && buf.Length == 257
    modifies conn`inbox, buf
    ensures conn.Valid() && res == DecodeAddress(atyp, old(conn.Pending())).outcome
    ensures res.Connect? ==> conn.Pending() == DecodeAddress(atyp, old(conn.Pending())).rest
    ensures res.Connect? || res.BadAddress?
  {
    var addr := ProxyAddr(conn, buf, atyp);
    if addr.None? {
      return BadAddress;
    }
    ghost var t := addr.value + conn.Pending();
    var n := |addr.value|;
    assert t[..n] == addr.value && t[n..] == conn.Pending();
    var ok := ReadFull(conn, buf, 2);
    if !ok {
      return BadAddress;
    }
    assert t[n + 2..] == conn.Pending();
    assert buf[..2][0] == t[n] && buf[..2][1] == t[n + 1];
    return Connect(Request(atyp, addr.value, Port(buf[0], buf[1])));
  }

  method ProxyGreeting(conn: Conn<Byte>, buf: array<Byte>) returns (ok: bool)
    requires conn.Valid() && buf.Length == 257
    modifies conn`inbox, buf
    ensures conn.Valid()
    ensures var s := old(conn.Pending());
            if ok then Decode(s) == DecodeRequest(conn.Pending()) else Decode(s) == Fails(ShortGreeting)
  {
    ghost var s := conn.Pending();
    ok := ReadFull(conn, buf, 2);
    if !ok {
      return;
    }
    assert buf[..2][1] == s[1];
    var nMethods: nat := buf[1];
    if nMethods > 0 {
      ok := ReadFull(conn, buf, nMethods);
    }
    assert ok ==> conn.Pending() == s[2 + nMethods..];
  }

  method ProxyRequest(conn: Conn<Byte>, buf: array<Byte>) returns (res: Outcome)
    requires conn.Valid() && buf.Length == 257
    modifies conn, buf
    ensures conn.Valid() && res == DecodeRequest(old(conn.Pending())).outcome
    ensures res.Connect? ==> conn.Pending() == DecodeRequest(old(conn.Pending())).rest
    ensures conn.outbox == old(conn.outbox) + Taken(Refusal(res, false), old(conn.room))
  {
    ghost var t := conn.Pending();
    var ok := ReadFull(conn, buf, 4);
    if !ok {
      return ShortRequest;
    }
    assert buf[..4][1] == t[1] && buf[..4][3] == t[3];
    if buf[1] != CONNECT {
      var _, _ := conn.Write(FinalReply(BAD_COMMAND));
      return BadCommand;
    }
    res := ProxyFields(conn, buf, buf[3]);
  }

  /** The handshake part of handle.  None when the method reply cannot be written. */
  method ProxyHandshake(conn: Conn<Byte>) returns (res: Option<Outcome>)
    requires conn.Valid()
    modifies conn
    ensures conn.Valid()
    ensures res.Some? ==> res.value == Decode(old(conn.Pending())).outcome
    ensures res.Some? && res.value.Connect? ==> conn.Pending() == Decode(old(conn.Pending())).rest
    ensures res.Some? ==> conn.outbox == old(conn.outbox) + Taken(Replies(res.value, false), old(conn.room))
    ensures res.None? <==> !Decode(old(conn.Pending())).outcome.ShortGreeting? && old(conn.room) < 2
  {
    hide DecodeRequest;
    var buf := new Byte[257](_ => 0);
    var ok := ProxyGreeting(conn, buf);
    if !ok {
      return Some(ShortGreeting);
    }
    RequestIsNotGreeting(conn.Pending());
    var _, sent := conn.Write(METHOD_REPLY);
    if !sent {
      return None;
    }
    var o := ProxyRequest(conn, buf);
    TakenJoin(METHOD_REPLY, Refusal(o, false), old(conn.room));
    return Some(o);
  }

  // ---- The tunnel (internal/tunnel): the greeting must arrive in the first read ----

  const SMALL_BUFFER: nat := 4096

  /** The tunnel checks the version of the request. */
  function TunnelDecodeRequest(later: seq<Byte>): Decoded {
    if |later| < 4 then Fails(ShortRequest)
    else if later[0] != VERSION || later[1] != CONNECT then Fails(BadCommand)
    else DecodeAddress(later[3], later[4..])
  }

  /** What the tunnel makes of a first read and the rest of the stream: anything after the
      greeting in the first read is dropped. */
  function TunnelDecode(first: seq<Byte>, later: seq<Byte>): Decoded {
    if |first| < 3 || |first| < 2 + first[1] as nat then Fails(ShortGreeting) else TunnelDecodeRequest(later)
  }

  method TunnelFields(conn: Conn<Byte>, atyp: Byte) returns (res: Outcome)
    requires conn.Valid()
    modifies conn`inbox
    ensures conn.Valid() && res == DecodeAddress(atyp, old(conn.Pending())).outcome
    ensures res.Connect? ==> conn.Pending() == DecodeAddress(atyp, old(conn.Pending())).rest
    ensures res.Connect? || res.BadAddress?
  {
    ghost var s := conn.Pending();
    var ok, n := true, 0;
    if atyp == IPV4 {
      n := 4;
    } else if atyp == DOMAIN {
      var b := new Byte[1](_ => 0);
      ok := ReadFull(conn, b, 1);
      n := if ok then b[..1][0] else 0;
    } else if atyp == IPV6 {
      n := 16;
    } else {
      ok := false;
    }
    if !ok {
      return BadAddress;
    }
    ghost var t := conn.Pending();
    assert DecodeAddress(atyp, s) == DecodeFields(atyp, t, n);
    var b2 := new Byte[n](_ => 0);
    ok := ReadFull(conn, b2, n);
    if !ok {
      return BadAddress;
    }
    var host := b2[..n];
    var pb := new Byte[2](_ => 0);
    ok := ReadFull(conn, pb, 2);
    if !ok {
      return BadAddress;
    }
    assert pb[..2][0] == t[n] && pb[..2][1] == t[n + 1];
    assert t[n..][2..] == t[n + 2..];
    return Connect(Request(atyp, host, Port(pb[0], pb[1])));
  }

  method TunnelRequest(conn: Conn<Byte>) returns (res: Outcome)
    requires conn.Valid()
    modifies conn
    ensures conn.Valid() && res == TunnelDecodeRequest(old(conn.Pending())).outcome && !res.ShortGreeting?
    ensures res.Connect? ==> conn.Pending() == TunnelDecodeRequest(old(conn.Pending())).rest
    ensures conn.outbox == old(conn.outbox) + Taken(Refusal(res, false), old(conn.room))
  {
    ghost var t := conn.Pending();
    var reqBuf := new Byte[4](_ => 0);
    var ok := ReadFull(conn, reqBuf, 4);
    if !ok {
      return ShortRequest;
    }
    assert reqBuf[..4][0] == t[0] && reqBuf[..4][1] == t[1] && reqBuf[..4][3] == t[3];
    if reqBuf[0] != VERSION || reqBuf[1] != CONNECT {
      var _, _ := conn.Write(FinalReply(BAD_COMMAND));
      return BadCommand;
    }
    res := TunnelFields(conn, reqBuf[3]);
  }

  /** handleSOCKS5 after handleTCP's first read gave `initial`. */
  method TunnelHandshake(conn: Conn<Byte>, initial: seq<Byte>) returns (res: Option<Outcome>)
    requires conn.Valid()
    modifies conn
    ensures conn.Valid()
    ensures res.Some? ==> res.value == TunnelDecode(initial, old(conn.Pending())).outcome
    ensures res.Some? && res.value.Connect? ==> conn.Pending() == TunnelDecode(initial, old(conn.Pending())).rest
    ensures res.Some? ==> conn.outbox == old(conn.outbox) + Taken(Replies(res.value, false), old(conn.room))
    ensures res.None? <==>
            !TunnelDecode(initial, old(conn.Pending())).outcome.ShortGreeting? && old(conn.room) < 2
  {
    if |initial| < 3 {
      return Some(ShortGreeting);
    }
    var nmethods: nat := initial[1];
    if |initial| < 2 + nmethods {
      return Some(ShortGreeting);
    }
    var _, sent := conn.Write(METHOD_REPLY);
    if !sent {
      return None;
    }
    var o := TunnelRequest(conn);
    TakenJoin(METHOD_REPLY, Refusal(o, false), old(conn.room));
    return Some(o);
  }

  function FirstRead(inbox: seq<seq<Byte>>): seq<Byte>
    requires inbox != []
  {
    inbox[0][..if SMALL_BUFFER < |inbox[0]| then SMALL_BUFFER else |inbox[0]|]
  }

  /** handleTCP as far as SOCKS5 goes: one read into a small buffer, then the handshake.  None
      when the connection is not SOCKS5 or the method reply cannot be written. */
  method TunnelAccept(conn: Conn<Byte>) returns (res: Option<Outcome>, ghost later: seq<Byte>)
    requires conn.Valid()
    modifies conn
    ensures conn.Valid()
    ensures old(conn.inbox) == [] || old(conn.inbox)[0][0] != VERSION ==> res == None && conn.outbox == old(conn.outbox)
    ensures old(conn.inbox) != [] ==>
              && old(conn.Pending()) == FirstRead(old(conn.inbox)) + later
              && |FirstRead(old(conn.inbox))| == if 4096 < |old(conn.inbox)[0]| then 4096 else |old(conn.inbox)[0]|
    ensures old(conn.inbox) != [] && old(conn.inbox)[0][0] == VERSION && 2 <= old(conn.room) ==>
              var d := TunnelDecode(FirstRead(old(conn.inbox)), later);
              res == Some(d.outcome) && (d.outcome.Connect? ==> conn.Pending() == d.rest)
  {
    var ok, peek := conn.Read(SMALL_BUFFER);
    later := conn.Pending();
    if !ok || peek[0] != VERSION {
      return None, later;
    }
    res := TunnelHandshake(conn, peek);
  }

  // ---- Agreement ----

  /** For a stream that carries a request, the tunnel gets the same request and leaves the same
      rest as the other two exactly when its first read is the greeting alone, nonempty in
      methods, and the request states version 5. */
  lemma TunnelAgreesExactly(first: seq<Byte>, later: seq<Byte>)
    requires 2 <= |first| && Decode(first + later).outcome.Connect?
    ensures TunnelDecode(first, later) == Decode(first + later) <==>
            |first| == 2 + first[1] as nat && 0 < first[1] && later[0..1] == [VERSION]
  {
    var s := first + later;
    var g := 2 + s[1] as nat;
    assert s[1] == first[1];
    if |first| == g {
      assert s[g..] == later;
    } else if TunnelDecode(first, later) == Decode(s) {
      RequestLength(s[g..]);
      RequestLength(later);
      assert false;
    }
  }

  // ---- What refused clients are sent ----

  /** A greeting and a request with its 4 fixed bytes, the command not CONNECT. */
  predicate OtherCommand(s: seq<Byte>) {
    2 <= |s| && 6 + s[1] as nat <= |s| && s[3 + s[1] as nat] != 1
  }

  /** A greeting and a CONNECT request whose address or port cannot be read. */
  predicate NoAddress(s: seq<Byte>) {
    2 <= |s| && 6 + s[1] as nat <= |s| && s[3 + s[1] as nat] == 1 && !HasAddress(s[2 + s[1] as nat..])
  }

  const REFUSED_COMMAND: seq<Byte> := [5, 0, 5, 7, 0, 1, 0, 0, 0, 0, 0, 0]
  const REFUSED_ADDRESS: seq<Byte> := [5, 0, 5, 8, 0, 1, 0, 0, 0, 0, 0, 0]

  lemma Refusals(s: seq<Byte>, answersBadAddress: bool)
    ensures OtherCommand(s) ==> Replies(Decode(s).outcome, answersBadAddress) == REFUSED_COMMAND
    ensures NoAddress(s) ==> Replies(Decode(s).outcome, answersBadAddress)
                             == if answersBadAddress then REFUSED_ADDRESS else [5, 0]
  {
    OutcomeExactly(s);
    RepliesExactly(Decode(s).outcome, answersBadAddress);
  }

  lemma TunnelRefusals(first: seq<Byte>, later: seq<Byte>)
    requires 3 <= |first| && 2 + first[1] as nat <= |first| && 4 <= |later|
    ensures var o := TunnelDecode(first, later).outcome;
            && (later[0] != 5 || later[1] != 1 ==> Replies(o, false) == REFUSED_COMMAND)
            && (later[0] == 5 && later[1] == 1 && !HasAddress(later) ==> Replies(o, false) == [5, 0])
            && (o.Connect? <==> later[0] == 5 && later[1] == 1 && HasAddress(later))
  {
    RepliesExactly(TunnelDecode(first, later).outcome, false);
  }

  /** Each of the three, whatever the segments, given room for the replies: a command other than
      CONNECT is answered 7 by all, and an address that cannot be read is answered 8 by the relay
      and by nothing more from the others. */
  method RelayRefuses(conn: Conn<Byte>, r: BufReader<Byte>) returns (res: Outcome)
    requires r.Valid() && r.src == conn && 12 <= conn.room
    modifies r`buf, conn
    ensures OtherCommand(old(r.Stream())) ==> res == BadCommand && conn.outbox == old(conn.outbox) + REFUSED_COMMAND
    ensures NoAddress(old(r.Stream())) ==> res == BadAddress && conn.outbox == old(conn.outbox) + REFUSED_ADDRESS
  {
    OutcomeExactly(r.Stream());
    Refusals(r.Stream(), true);
    hide Decode, Replies, HasAddress;
    res := RelayHandshake(conn, r);
  }

  method ProxyRefuses(conn: Conn<Byte>) returns (res: Option<Outcome>)
    requires conn.Valid() && 12 <= conn.room
    modifies conn
    ensures OtherCommand(old(conn.Pending())) ==>
              res == Some(BadCommand) && conn.outbox == old(conn.outbox) + REFUSED_COMMAND
    ensures NoAddress(old(conn.Pending())) ==> res == Some(BadAddress) && conn.outbox == old(conn.outbox) + [5, 0]
  {
    OutcomeExactly(conn.Pending());
    Refusals(conn.Pending(), false);
    hide Decode, Replies, HasAddress, Flatten;
    res := ProxyHandshake(conn);
  }

  method TunnelRefuses(conn: Conn<Byte>, initial: seq<Byte>) returns (res: Option<Outcome>)
    requires conn.Valid() && 12 <= conn.room && 3 <= |initial| && 2 + initial[1] as nat <= |initial|
    modifies conn
    ensures var later := old(conn.Pending());
            && (4 <= |later| && (later[0] != 5 || later[1] != 1) ==>
                  res == Some(BadCommand) && conn.outbox == old(conn.outbox) + REFUSED_COMMAND)
            && (4 <= |later| && later[0] == 5 && later[1] == 1 && !HasAddress(later) ==>
                  res == Some(BadAddress) && conn.outbox == old(conn.outbox) + [5, 0])
  {
    if 4 <= |conn.Pending()| {
      TunnelRefusals(initial, conn.Pending());
    }
    res := TunnelHandshake(conn, initial);
  }
}
