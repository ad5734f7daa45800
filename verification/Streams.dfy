/** Connections as the programs see them: bytes arrive in segments of any size, a buffered
    reader may read ahead as far as it likes, and writes may fail part-way. */
module Streams {
  import opened Text

  function Flatten<T>(segments: seq<seq<T>>): seq<T> {
    if segments == [] then [] else segments[0] + Flatten(segments[1..])
  }

  /** Reading on: the first `n` of `all` are done, `chunk` comes next, and `k` of it are used. */
  lemma ReadOn<T>(all: seq<T>, n: nat, chunk: seq<T>, rest: seq<T>, k: nat)
    requires n <= |all| && all[n..] == chunk + rest && k <= |chunk|
    ensures n + k <= |all| && all[..n + k] == all[..n] + chunk[..k]
    ensures all[n + k..] == chunk[k..] + rest
  {
    assert all == all[..n] + (chunk + rest);
    assert chunk + rest == chunk[..k] + (chunk[k..] + rest);
  }

  /** A TCP connection.  `inbox` is what the peer will still deliver, one element a segment;
      when it is used up a read reports end of stream.  The peer takes `room` more bytes, then
      writes fail. */
  class Conn<T> {
    var inbox: seq<seq<T>>
    var outbox: seq<T>
    var room: nat
    var shut: bool

    ghost predicate Valid()
      reads this
    {
      forall i :: 0 <= i < |inbox| ==> inbox[i] != []
    }

    /** All that is still to be read. */
    ghost function Pending(): seq<T>
      reads this
    {
      Flatten(inbox)
    }

    constructor (inbox: seq<seq<T>>, room: nat)
      requires forall i :: 0 <= i < |inbox| ==> inbox[i] != []
      ensures Valid() && this.inbox == inbox && this.room == room && outbox == [] && !shut
    {
      this.inbox, this.room, outbox, shut := inbox, room, [], false;
    }

    /** One read system call: up to `max` bytes, never past the end of a segment. */
    method Read(max: nat) returns (ok: bool, chunk: seq<T>)
      requires Valid() && 0 < max
      modifies this`inbox
      ensures Valid() && old(Pending()) == chunk + Pending()
      ensures ok <==> old(inbox) != []
      ensures ok ==> chunk == old(inbox)[0][..if max < |old(inbox)[0]| then max else |old(inbox)[0]|]
      ensures if ok then 0 < |chunk| <= max else chunk == [] && Pending() == []
    {
      if inbox == [] {
        return false, [];
      }
      var first := inbox[0];
      if max < |first| {
        chunk, inbox := first[..max], [first[max..]] + inbox[1..];
        assert inbox[1..] == old(inbox)[1..];
        assert first == first[..max] + first[max..];
      } else {
        chunk, inbox := first, inbox[1..];
      }
      ok := true;
    }

    /** A write: all of `p`, or as much of it as the peer takes and then failure for good. */
    method Write(p: seq<T>) returns (n: nat, ok: bool)
      modifies this`outbox, this`room
      ensures n == (if |p| <= old(room) then |p| else old(room)) && (ok <==> n == |p|)
      ensures outbox == old(outbox) + p[..n] && room == old(room) - n
    {
      n := if |p| <= room then |p| else room;
      outbox, room := outbox + p[..n], room - n;
      ok := n == |p|;
    }

    method CloseWrite()
      modifies this`shut
      ensures shut
    {
      shut := true;
    }
  }

  /** Put `chunk` into the buffer at `at`. */
  method Store<T>(buf: array<T>, at: nat, chunk: seq<T>)
    requires at + |chunk| <= buf.Length
    modifies buf
    ensures buf[..at] == old(buf[..at])
    ensures buf[at..at + |chunk|] == chunk
    ensures buf[at + |chunk|..] == old(buf[at + |chunk|..])
  {
    forall i | 0 <= i < |chunk| {
      buf[at + i] := chunk[i];
    }
  }

  /** io.ReadFull on a connection into the front of a buffer. */
  method ReadFull<T>(c: Conn<T>, buf: array<T>, n: nat) returns (ok: bool)
    requires c.Valid() && n <= buf.Length
    modifies c`inbox, buf
    ensures c.Valid()
    ensures ok <==> n <= |old(c.Pending())|
    ensures ok ==> buf[..n] == old(c.Pending())[..n] && c.Pending() == old(c.Pending())[n..]
    ensures !ok ==> c.Pending() == []
  {
    var got := 0;
    ghost var all := c.Pending();
    while got < n
      invariant c.Valid() && got <= n && got <= |all|
      invariant buf[..got] == all[..got] && c.Pending() == all[got..]
      decreases n - got
    {
      var more, chunk := c.Read(n - got);
      if !more {
        return false;
      }
      ReadOn(all, got, chunk, c.Pending(), |chunk|);
      assert chunk[..|chunk|] == chunk;
      Store(buf, got, chunk);
      got := got + |chunk|;
      assert buf[..got] == buf[..got - |chunk|] + chunk;
    }
    return true;
  }

  predicate EndsAt<T(==)>(part: seq<T>, delim: T) {
    part != [] && part[|part| - 1] == delim && delim !in part[..|part| - 1]
  }

  /** Cutting `all` after its first `delim`; without one everything is taken. */
  predicate Cut<T(==)>(all: seq<T>, delim: T, ok: bool, line: seq<T>, rest: seq<T>) {
    all == line + rest && if ok then EndsAt(line, delim) else delim !in line && rest == []
  }

  lemma EndsAtJoin<T>(line: seq<T>, part: seq<T>, delim: T)
    requires delim !in line && EndsAt(part, delim)
    ensures EndsAt(line + part, delim)
  {
    var all := line + part;
    assert all[..|all| - 1] == line + part[..|part| - 1];
  }

  datatype Slice = Found | Full | Ended

  /** bufio.Reader: `buf` holds what was read ahead, at most `size`. */
  class BufReader<T(==)> {
    const src: Conn<T>
    const size: nat
    var buf: seq<T>

    ghost predicate Valid()
      reads this, src
    {
      src.Valid() && |buf| <= size && 0 < size
    }

    /** What a user of the reader will still see: the read-ahead, then the connection. */
    ghost function Stream(): seq<T>
      reads this, src
    {
      buf + src.Pending()
    }

    constructor (src: Conn<T>, size: nat)
      requires src.Valid() && 0 < size
      ensures Valid() && this.src == src && this.size == size && buf == [] && Stream() == src.Pending()
    {
      this.src, this.size, buf := src, size, [];
    }

    /** Read ahead once, as much as arrives and fits. */
    method Fill() returns (ok: bool)
      requires Valid() && |buf| < size
      modifies this`buf, src`inbox
      ensures Valid() && Stream() == old(Stream())
      ensures if ok then |buf| > |old(buf)| else buf == old(buf) && src.Pending() == []
    {
      var more, chunk := src.Read(size - |buf|);
      buf := buf + chunk;
      assert old(Stream()) == old(buf) + (chunk + src.Pending());
      ok := more;
    }

    method Peek() returns (ok: bool, b: seq<T>)
      requires Valid()
      modifies this`buf, src`inbox
      ensures Valid() && Stream() == old(Stream())
      ensures ok <==> Stream() != []
      ensures ok ==> b == Stream()[..1]
    {
      ok := true;
      if buf == [] {
        ok := Fill();
      }
      b := if ok then buf[..1] else [];
    }

    /** One Read of up to `max` bytes: from the buffer when it holds something; a large read
        with an empty buffer goes straight to the connection. */
    method Read(max: nat) returns (ok: bool, chunk: seq<T>)
      requires Valid() && 0 < max
      modifies this`buf, src`inbox
      ensures Valid() && old(Stream()) == chunk + Stream()
      ensures if ok then 0 < |chunk| <= max else chunk == [] && Stream() == []
    {
      if buf == [] && size <= max {
        ok, chunk := src.Read(max);
        return;
      }
      ok := true;
      if buf == [] {
        ok := Fill();
      }
      var n := if max < |buf| then max else |buf|;
      chunk, buf := buf[..n], buf[n..];
    }

    /** io.ReadFull on the reader. */
    method ReadFull(n: nat) returns (ok: bool, data: seq<T>)
      requires Valid()
      modifies this`buf, src`inbox
      ensures Valid()
      ensures ok <==> n <= |old(Stream())|
      ensures ok ==> data == old(Stream())[..n] && Stream() == old(Stream())[n..]
      ensures !ok ==> Stream() == []
    {
      data := [];
      ghost var all := Stream();
      while |data| < n
        invariant Valid() && |data| <= n && all == data + Stream()
        decreases n - |data|
      {
        var more, chunk := Read(n - |data|);
        if !more {
          return false, data;
        }
        Assoc(data, chunk, Stream());
        data := data + chunk;
      }
      return true, data;
    }

    /** Take from the buffer up to the first `delim`, reading ahead until there is one, the
        buffer is full, or the connection ends. */
    method ReadSlice(delim: T) returns (s: Slice, part: seq<T>)
      requires Valid()
      modifies this`buf, src`inbox
      ensures Valid() && old(Stream()) == part + Stream()
      ensures s.Found? ==> EndsAt(part, delim)
      ensures s.Full? ==> delim !in part && |part| == size
      ensures s.Ended? ==> delim !in part && Stream() == []
    {
      while delim !in buf && |buf| < size
        invariant Valid() && Stream() == old(Stream())
        decreases size - |buf|
      {
        var more := Fill();
        if !more {
          part, buf := buf, [];
          return Ended, part;
        }
      }
      var i := IndexOf(buf, delim);
      if i < |buf| {
        assert buf[..i + 1][..i] == buf[..i];
        s, part, buf := Found, buf[..i + 1], buf[i + 1..];
      } else {
        s, part, buf := Full, buf, [];
      }
    }

    /** ReadString: everything up to and including the first `delim`. */
    method ReadUntil(delim: T) returns (ok: bool, line: seq<T>)
      requires Valid()
      modifies this`buf, src`inbox
      ensures Valid() && Cut(old(Stream()), delim, ok, line, Stream())
    {
      line := [];
      ghost var all := Stream();
      while true
        invariant Valid() && all == line + Stream() && delim !in line
        decreases |Stream()|
      {
        var s, part := ReadSlice(delim);
        if s.Found? {
          EndsAtJoin(line, part, delim);
        }
        Assoc(line, part, Stream());
        line := line + part;
        if !s.Full? {
          return s.Found?, line;
        }
      }
    }
  }
}
