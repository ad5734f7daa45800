/** The relay's forwarding: what the handshake leaves in the buffered reader is copied on. */
module Pipe {
  import opened Text
  import opened Streams
  import opened Socks5
  import opened Parsers
  import opened Pool

  const COPY_SIZE: nat := 32768
  const RELAY_BUFFER: nat := 65536

  /** io.Copy from a buffered reader: read-ahead first, then the connection, until the stream
      ends or a write fails. */
  method Copy(dst: Conn<Byte>, r: BufReader<Byte>) returns (n: nat, ok: bool)
    requires r.Valid() && r.src != dst && dst.Valid()
    modifies r`buf, r.src`inbox, dst`outbox, dst`room
    ensures r.Valid() && dst.Valid()
    ensures dst.outbox == old(dst.outbox) + Taken(old(r.Stream()), old(dst.room))
    ensures n == |Taken(old(r.Stream()), old(dst.room))|
    ensures ok <==> n == |old(r.Stream())|
  {
    n, ok := 0, true;
    ghost var all, out, room := r.Stream(), dst.outbox, dst.room;
    while true
      invariant r.Valid() && dst.Valid() && n <= |all| && n <= room
      invariant all[n..] == r.Stream() && dst.outbox == out + all[..n] && dst.room == room - n
      decreases |r.Stream()|
    {
      var more, chunk := r.Read(COPY_SIZE);
      if !more {
        return n, true;
      }
      var k, sent := dst.Write(chunk);
      ReadOn(all, n, chunk, r.Stream(), k);
      Assoc(out, all[..n], chunk[..k]);
      n := n + k;
      if !sent {
        return n, false;
      }
    }
  }

  /** One direction of pipe. */
  method Forward(dst: Conn<Byte>, r: BufReader<Byte>)
    requires r.Valid() && r.src != dst && dst.Valid()
    modifies r`buf, r.src`inbox, dst
    ensures r.Valid() && dst.Valid() && dst.shut
    ensures dst.outbox == old(dst.outbox) + Taken(old(r.Stream()), old(dst.room))
  {
    var _, _ := Copy(dst, r);
    dst.CloseWrite();
  }

  /** The end of the SOCKS5 handler once a data connection has been received: the grant, whose
      write error is ignored, and the client's direction of the pipe. */
  method GrantAndForward(conn: Conn<Byte>, r: BufReader<Byte>, data: Conn<Byte>)
    requires r.Valid() && data.Valid() && r.src == conn != data
    modifies r`buf, conn, data
    ensures data.outbox == old(data.outbox) + Taken(old(r.Stream()), old(data.room)) && data.shut
    ensures conn.outbox == old(conn.outbox) + Taken(FinalReply(0), old(conn.room))
  {
    var _, _ := conn.Write(FinalReply(0));
    Forward(data, r);
  }

  /** The start of handle: a reader, a look at the first byte, and for SOCKS5 the handshake.
      None when the connection is not SOCKS5. */
  method AcceptSocks(conn: Conn<Byte>) returns (res: Option<Outcome>, r: BufReader<Byte>)
    requires conn.Valid()
    modifies conn
    ensures fresh(r) && r.Valid() && r.src == conn
    ensures var s := old(conn.Pending());
            if s == [] || s[0] != VERSION then res == None && r.Stream() == s && conn.outbox == old(conn.outbox)
            else
              && res == Some(Decode(s).outcome) && (res.value.Connect? ==> r.Stream() == Decode(s).rest)
              && conn.outbox == old(conn.outbox) + Taken(Replies(res.value, true), old(conn.room))
              && conn.room == Left(Replies(res.value, true), old(conn.room))
  {
    hide Decode;
    r := new BufReader<Byte>(conn, RELAY_BUFFER);
    var ok, b := r.Peek();
    if !ok || b[0] != VERSION {
      return None, r;
    }
    var o := RelayHandshake(conn, r);
    return Some(o), r;
  }

  /** The first byte is what sends a connection to the SOCKS5 handler. */
  lemma OpensWithVersion(methods: seq<Byte>, request: seq<Byte>, payload: seq<Byte>)
    requires |methods| <= 255
    ensures var s := EncodeGreeting(methods) + request + payload; s != [] && s[0] == VERSION
  {
  }

  /** Stream conservation: whatever the segments and the read-ahead, a client that sends an
      encoded handshake and then a payload has exactly the payload forwarded, as far as the data
      connection takes it, and nothing of the handshake; and it is sent exactly the method reply
      and the grant.  `data` is the connection that the rendezvous in between has handed over. */
  method ServeClient(conn: Conn<Byte>, data: Conn<Byte>, methods: seq<Byte>, req: Request, payload: seq<Byte>)
    returns (res: Outcome)
    requires conn.Valid() && data.Valid() && conn != data
    requires |methods| <= 255 && ValidRequest(req)
    requires conn.Pending() == EncodeGreeting(methods) + EncodeRequest(req) + payload
    modifies conn, data
    ensures res == Connect(req)
    ensures data.outbox == old(data.outbox) + Taken(payload, old(data.room)) && data.shut
    ensures conn.outbox == old(conn.outbox) + Taken(METHOD_REPLY + FinalReply(0), old(conn.room))
  {
    RoundTrip(methods, req, payload);
    OpensWithVersion(methods, EncodeRequest(req), payload);
    hide Decode, EncodeGreeting, EncodeRequest, FinalReply, Flatten;
    ghost var out, room := conn.outbox, conn.room;
    var o, r := AcceptSocks(conn);
    res := o.value;
    GrantAndForward(conn, r, data);
    TakenJoin(METHOD_REPLY, FinalReply(0), room);
    Assoc(out, Taken(METHOD_REPLY, room), Taken(FinalReply(0), Left(METHOD_REPLY, room)));
  }

  // ---- The pooled copy loop of the proxy, the tunnel and the phone ----

  /** One round: a read into the buffer and a write of what came, of which `k` bytes passed. */
  method CopyOnce(dst: Conn<Byte>, src: Conn<Byte>, buf: array<Byte>)
    returns (more: bool, k: nat, sent: bool, ghost chunk: seq<Byte>)
    requires src.Valid() && dst.Valid() && src != dst && 0 < buf.Length
    modifies src`inbox, dst`outbox, dst`room, buf
    ensures src.Valid() && dst.Valid() && old(src.Pending()) == chunk + src.Pending()
    ensures if more then chunk != [] else chunk == [] && src.Pending() == []
    ensures k == (if |chunk| <= old(dst.room) then |chunk| else old(dst.room)) && (sent <==> k == |chunk|)
    ensures dst.outbox == old(dst.outbox) + chunk[..k] && dst.room == old(dst.room) - k
  {
    var part;
    more, part := src.Read(buf.Length);
    chunk := part;
    if !more {
      return more, 0, true, chunk;
    }
    Store(buf, 0, part);
    assert buf[..|part|] == part;
    k, sent := dst.Write(buf[..|part|]);
  }

  /** io.CopyBuffer through the caller's buffer. */
  method CopyBuffer(dst: Conn<Byte>, src: Conn<Byte>, buf: array<Byte>) returns (n: nat, ok: bool)
    requires src.Valid() && dst.Valid() && src != dst && 0 < buf.Length
    modifies src`inbox, dst`outbox, dst`room, buf
    ensures src.Valid() && dst.Valid()
    ensures dst.outbox == old(dst.outbox) + Taken(old(src.Pending()), old(dst.room))
    ensures n == |Taken(old(src.Pending()), old(dst.room))| && (ok <==> n == |old(src.Pending())|)
  {
    n, ok := 0, true;
    ghost var all, out, room := src.Pending(), dst.outbox, dst.room;
    while true
      invariant src.Valid() && dst.Valid() && n <= |all| && n <= room
      invariant all[n..] == src.Pending() && dst.outbox == out + all[..n] && dst.room == room - n
      decreases |src.Pending()|
    {
      var more, k, sent, chunk := CopyOnce(dst, src, buf);
      if !more {
        return n, true;
      }
      ReadOn(all, n, chunk, src.Pending(), k);
      Assoc(out, all[..n], chunk[..k]);
      n := n + k;
      if !sent {
        return n, false;
      }
    }
  }

  /** One goroutine of BufferPool.Relay: the count it returns is what was delivered, the
      destination is half-closed, and its buffer is back in the pool and counted. */
  method RelayLoop(bp: BufferPool, dst: Conn<Byte>, src: Conn<Byte>) returns (n: nat)
    requires bp.Exact() && src.Valid() && dst.Valid() && src != dst
    modifies bp, bp.stats, src`inbox, dst, bp.tiers[Large]
    ensures bp.Exact() && src.Valid() && dst.Valid() && dst.shut
    ensures dst.outbox == old(dst.outbox) + Taken(old(src.Pending()), old(dst.room))
    ensures n == |Taken(old(src.Pending()), old(dst.room))|
    ensures bp.stats.reused == old(bp.stats.reused) + 1 && bp.stats.putBack == old(bp.stats.putBack) + 1
    ensures bp.stats.dropped == old(bp.stats.dropped)
  {
    var buf := bp.Get(Large);
    var ok;
    n, ok := CopyBuffer(dst, src, buf);
    dst.CloseWrite();
    bp.PutIn(Large, buf);
  }
}
