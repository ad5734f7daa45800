/** Two-way relaying: for each relayed pair of connections two copy loops run side by side,
    each with its own buffer, half-closing its destination at the end; when both are done the
    byte counts are added to the server's counters.  Any loop of any relay may step next. */
module TwoWay {
  import opened Text
  import opened Socks5
  import opened Counting

  const LARGE_BUFFER: nat := 262144

  datatype Pc = TakingBuffer | Reading | Writing(chunk: seq<Byte>) | Shutting | ReturningBuffer | Done

  /** One copy loop.  `source` is all its source will ever deliver, `clean` whether it then ends
      rather than fails; `read` and `sent` are what the loop has read and what its destination
      took, `n` the count it will return, `shuts` how often it shut the destination's write side,
      and `ok` whether no read or write has failed. */
  datatype Loop = Loop(
    source: seq<Byte>, clean: bool, pc: Pc, read: nat, sent: seq<Byte>, n: nat, shuts: nat, ok: bool)

  function Fresh(source: seq<Byte>, clean: bool): Loop {
    Loop(source, clean, TakingBuffer, 0, [], 0, 0, true)
  }

  datatype Action =
    | TakeBuffer
    | ReadSome(k: nat)     // k bytes arrive
    | ReadEnd              // end of stream or a read error
    | WriteSome(k: nat)    // k bytes of the chunk are taken; fewer than all is a write error
    | Shut
    | ReturnBuffer

  predicate Can(l: Loop, a: Action) {
    match a
    case TakeBuffer => l.pc.TakingBuffer?
    case ReadSome(k) => l.pc.Reading? && l.read <= |l.source| && 0 < k <= LARGE_BUFFER && k <= |l.source| - l.read
    case ReadEnd => l.pc.Reading? && l.read == |l.source|
    case WriteSome(k) => l.pc.Writing? && k <= |l.pc.chunk|
    case Shut => l.pc.Shutting?
    case ReturnBuffer => l.pc.ReturningBuffer?
  }

  function Act(l: Loop, a: Action): Loop
    requires Can(l, a)
  {
    match a
    case TakeBuffer => l.(pc := Reading)
    case ReadSome(k) => l.(pc := Writing(l.source[l.read..l.read + k]), read := l.read + k)
    case ReadEnd => l.(pc := Shutting, ok := l.clean)
    case WriteSome(k) =>
      var m := l.(sent := l.sent + l.pc.chunk[..k], n := l.n + k);
      if k == |l.pc.chunk| then m.(pc := Reading) else m.(pc := Shutting, ok := false)
    case Shut => l.(pc := ReturningBuffer, shuts := l.shuts + 1)
    case ReturnBuffer => l.(pc := Done)
  }

  predicate Ending(pc: Pc) {
    pc.Shutting? || pc.ReturningBuffer? || pc.Done?
  }

  /** What was sent is the front of what was read, at most one buffer behind it; a loop without
      error has sent all it read; and the destination is shut once, at the very end. */
  predicate LoopOk(l: Loop) {
    && l.read <= |l.source| && l.sent <= l.source[..l.read] && l.read - |l.sent| <= LARGE_BUFFER
    && l.n == |l.sent|
    && l.shuts == (if l.pc.ReturningBuffer? || l.pc.Done? then 1 else 0)
    && match l.pc
       case TakingBuffer | Reading => l.sent == l.source[..l.read] && l.ok
       case Writing(chunk) => l.source[..l.read] == l.sent + chunk && |chunk| <= LARGE_BUFFER && l.ok
       case _ => l.ok <==> l.clean && l.sent == l.source
  }

  lemma ReadKeeps(l: Loop, k: nat)
    requires LoopOk(l) && Can(l, ReadSome(k))
    ensures LoopOk(Act(l, ReadSome(k)))
  {
    assert l.source[..l.read + k] == l.source[..l.read] + l.source[l.read..l.read + k];
  }

  lemma WriteKeeps(l: Loop, k: nat)
    requires LoopOk(l) && Can(l, WriteSome(k))
    ensures LoopOk(Act(l, WriteSome(k)))
  {
    var chunk := l.pc.chunk;
    assert l.sent + chunk == (l.sent + chunk[..k]) + chunk[k..];
    if k == |chunk| {
      assert chunk[..k] == chunk;
    }
  }

  lemma ActKeeps(l: Loop, a: Action)
    requires LoopOk(l) && Can(l, a)
    ensures LoopOk(Act(l, a))
  {
    match a
    case ReadSome(k) => ReadKeeps(l, k);
    case WriteSome(k) => WriteKeeps(l, k);
    case ReadEnd => assert l.source[..l.read] == l.source;
    case _ =>
  }

  // ---- All relays of a server ----

  /** `inAdded` and `outAdded` say whether the relay's counts were added to the counters. */
  datatype Relay = Relay(forth: Loop, back: Loop, inAdded: bool, outAdded: bool)

  datatype Server = Server(relays: seq<Relay>, bytesIn: int, bytesOut: int)

  datatype Event =
    | Begin(forth: Loop, back: Loop)
    | Forth(i: nat, a: Action)
    | Back(i: nat, a: Action)
    | AddIn(i: nat)
    | AddOut(i: nat)

  function LoopOf(r: Relay, forth: bool): Loop {
    if forth then r.forth else r.back
  }

  predicate BothDone(r: Relay) {
    r.forth.pc.Done? && r.back.pc.Done?
  }

  predicate Enabled(s: Server, e: Event) {
    match e
    case Begin(f, b) => f == Fresh(f.source, f.clean) && b == Fresh(b.source, b.clean)
    case Forth(i, a) => i < |s.relays| && Can(s.relays[i].forth, a)
    case Back(i, a) => i < |s.relays| && Can(s.relays[i].back, a)
    case AddIn(i) => i < |s.relays| && BothDone(s.relays[i]) && !s.relays[i].inAdded
    case AddOut(i) => i < |s.relays| && s.relays[i].inAdded && !s.relays[i].outAdded
  }

  function Next(s: Server, e: Event): Server
    requires Enabled(s, e)
  {
    match e
    case Begin(f, b) => s.(relays := s.relays + [Relay(f, b, false, false)])
    case Forth(i, a) => s.(relays := s.relays[i := s.relays[i].(forth := Act(s.relays[i].forth, a))])
    case Back(i, a) => s.(relays := s.relays[i := s.relays[i].(back := Act(s.relays[i].back, a))])
    case AddIn(i) =>
      s.(relays := s.relays[i := s.relays[i].(inAdded := true)], bytesIn := s.bytesIn + s.relays[i].forth.n)
    case AddOut(i) =>
      s.(relays := s.relays[i := s.relays[i].(outAdded := true)], bytesOut := s.bytesOut + s.relays[i].back.n)
  }

  function Run(events: seq<Event>): Option<Server> {
    if events == [] then Some(Server([], 0, 0))
    else
      var s := Run(events[..|events| - 1]);
      var e := events[|events| - 1];
      if s.Some? && Enabled(s.value, e) then Some(Next(s.value, e)) else None
  }

  /** What a relay contributes to each counter: the bytes delivered, once added. */
  function InOf(r: Relay): int { if r.inAdded then |r.forth.sent| else 0 }
  function OutOf(r: Relay): int { if r.outAdded then |r.back.sent| else 0 }

  predicate RelayOk(r: Relay) {
    LoopOk(r.forth) && LoopOk(r.back) && (r.inAdded ==> BothDone(r)) && (r.outAdded ==> r.inAdded)
  }

  ghost predicate Inv(s: Server) {
    && (forall i :: 0 <= i < |s.relays| ==> RelayOk(s.relays[i]))
    && s.bytesIn == Sum(s.relays, InOf)
    && s.bytesOut == Sum(s.relays, OutOf)
  }

  function Changed(s: Server, e: Event): Relay
    requires Enabled(s, e) && !e.Begin?
  {
    Next(s, e).relays[e.i]
  }

  lemma ChangedOk(s: Server, e: Event)
    requires Inv(s) && Enabled(s, e) && !e.Begin?
    ensures RelayOk(Changed(s, e))
  {
    var r := s.relays[e.i];
    assert RelayOk(r);
    match e
    case Forth(_, a) => ActKeeps(r.forth, a);
    case Back(_, a) => ActKeeps(r.back, a);
    case _ =>
  }

  lemma InvStep(s: Server, e: Event)
    requires Inv(s) && Enabled(s, e)
    ensures Inv(Next(s, e))
  {
    if e.Begin? {
      var r := Relay(e.forth, e.back, false, false);
      assert e.forth.sent == [] == e.forth.source[..0] && e.back.sent == [] == e.back.source[..0];
      assert RelayOk(r);
      SumAppend(s.relays, r, InOf);
      SumAppend(s.relays, r, OutOf);
    } else {
      assert RelayOk(s.relays[e.i]);
      ChangedOk(s, e);
      assert Next(s, e).relays == s.relays[e.i := Changed(s, e)];
      SumUpdate(s.relays, e.i, Changed(s, e), InOf);
      SumUpdate(s.relays, e.i, Changed(s, e), OutOf);
    }
  }

  lemma {:induction false} InvAlways(events: seq<Event>)
    requires Run(events).Some?
    ensures Inv(Run(events).value)
  {
    if events == [] {
    } else {
      InvAlways(events[..|events| - 1]);
      InvStep(Run(events[..|events| - 1]).value, events[|events| - 1]);
    }
  }

  /** On every run, in every loop: what went out is the front of what came in, at most one
      buffer behind; the destination is shut at most once, and when it is, an error-free loop
      has delivered its whole source. */
  lemma CopyIsFaithful(events: seq<Event>, i: nat, forth: bool)
    requires Run(events).Some? && i < |Run(events).value.relays|
    ensures var l := LoopOf(Run(events).value.relays[i], forth);
            && l.read <= |l.source| && l.sent <= l.source[..l.read] && l.read <= |l.sent| + 262144
            && l.shuts <= 1 && (0 < l.shuts ==> Ending(l.pc))
            && (0 < l.shuts ==> (l.ok <==> l.clean && l.sent == l.source))
            && (l.pc.Done? ==> l.n == |l.sent| && l.shuts == 1)
  {
    InvAlways(events);
    assert RelayOk(Run(events).value.relays[i]);
  }

  /** The server's counters are, on every run, the delivered bytes of the relays added so far. */
  lemma CountersAreDeliveries(events: seq<Event>)
    requires Run(events).Some?
    ensures Run(events).value.bytesIn == Sum(Run(events).value.relays, InOf)
    ensures Run(events).value.bytesOut == Sum(Run(events).value.relays, OutOf)
  {
    InvAlways(events);
  }

  /** A loop can always go on: with some action it has, it is never stuck before it is done. */
  lemma LoopNeverStuck(events: seq<Event>, i: nat, forth: bool)
    requires Run(events).Some? && i < |Run(events).value.relays|
    requires !LoopOf(Run(events).value.relays[i], forth).pc.Done?
    ensures exists a :: Can(LoopOf(Run(events).value.relays[i], forth), a)
  {
    InvAlways(events);
    var r := Run(events).value.relays[i];
    assert RelayOk(r);
    var l := LoopOf(r, forth);
    var a := match l.pc
             case TakingBuffer => TakeBuffer
             case Reading => if l.read < |l.source| then ReadSome(1) else ReadEnd
             case Writing(_) => WriteSome(0)
             case Shutting => Shut
             case _ => ReturnBuffer;
    assert Can(l, a);
  }

  // ---- Only a short write cuts a stream short ----

  function ActionOf(e: Event, i: nat, forth: bool): Option<Action> {
    match e
    case Forth(j, a) => if j == i && forth then Some(a) else None
    case Back(j, a) => if j == i && !forth then Some(a) else None
    case _ => None
  }

  /** Step `k` of the run is a write of this loop of which not all bytes are taken. */
  ghost predicate ShortWrite(events: seq<Event>, k: nat, i: nat, forth: bool) {
    && k < |events| && Run(events[..k]).Some? && i < |Run(events[..k]).value.relays|
    && var l := LoopOf(Run(events[..k]).value.relays[i], forth);
       var a := ActionOf(events[k], i, forth);
       a.Some? && a.value.WriteSome? && l.pc.Writing? && a.value.k < |l.pc.chunk|
  }

  ghost predicate CutShort(events: seq<Event>, i: nat, forth: bool) {
    exists k: nat :: ShortWrite(events, k, i, forth)
  }

  lemma ShortBefore(events: seq<Event>, e: Event, k: nat, i: nat, forth: bool)
    requires k < |events|
    ensures ShortWrite(events + [e], k, i, forth) <==> ShortWrite(events, k, i, forth)
  {
    assert (events + [e])[..k] == events[..k];
  }

  lemma CutNow(events: seq<Event>, e: Event, i: nat, forth: bool)
    ensures CutShort(events + [e], i, forth) <==>
            CutShort(events, i, forth) || ShortWrite(events + [e], |events|, i, forth)
  {
    hide ShortWrite;
    if k: nat :| ShortWrite(events + [e], k, i, forth) {
      if k < |events| {
        ShortBefore(events, e, k, i, forth);
      } else {
        LastIsLast(events, e, k, i, forth);
      }
    }
    if k: nat :| ShortWrite(events, k, i, forth) {
      ShortIsEarly(events, k, i, forth);
      ShortBefore(events, e, k, i, forth);
    }
  }

  lemma LastIsLast(events: seq<Event>, e: Event, k: nat, i: nat, forth: bool)
    requires |events| <= k && ShortWrite(events + [e], k, i, forth)
    ensures k == |events|
  {
  }

  lemma ShortIsEarly(events: seq<Event>, k: nat, i: nat, forth: bool)
    requires ShortWrite(events, k, i, forth)
    ensures k < |events|
  {
  }

  /** The loop is on its way out without having sent all. */
  predicate Short(l: Loop) {
    Ending(l.pc) && l.sent != l.source
  }

  lemma ShortStep(l: Loop, a: Action)
    requires LoopOk(l) && Can(l, a)
    ensures Short(Act(l, a)) <==> Short(l) || (a.WriteSome? && a.k < |l.pc.chunk|)
  {
    match a
    case WriteSome(k) => assert k < |l.pc.chunk| ==> |l.sent + l.pc.chunk[..k]| < |l.source|;
    case ReadEnd => assert l.source[..l.read] == l.source;
    case _ =>
  }

  lemma OthersStand(s: Server, e: Event, i: nat, forth: bool)
    requires Enabled(s, e) && i < |s.relays| && ActionOf(e, i, forth).None?
    ensures i < |Next(s, e).relays| && LoopOf(Next(s, e).relays[i], forth) == LoopOf(s.relays[i], forth)
  {
  }

  lemma ActsOn(s: Server, e: Event, i: nat, forth: bool)
    requires Enabled(s, e) && ActionOf(e, i, forth).Some?
    ensures i < |s.relays| && i < |Next(s, e).relays|
    ensures var l, a := LoopOf(s.relays[i], forth), ActionOf(e, i, forth).value;
            Can(l, a) && LoopOf(Next(s, e).relays[i], forth) == Act(l, a)
  {
  }

  lemma {:induction false} NotCutYet(events: seq<Event>, i: nat, forth: bool)
    requires Run(events).Some? && |Run(events).value.relays| <= i
    ensures !CutShort(events, i, forth)
  {
    if events == [] {
    } else {
      var before, e := events[..|events| - 1], events[|events| - 1];
      assert events == before + [e];
      assert events[..|before|] == before;
      NotCutYet(before, i, forth);
      CutNow(before, e, i, forth);
    }
  }

  /** On every run a loop that has come to its shut has not sent its whole source if and only if one
      of its writes was short. */
  lemma {:induction false} CutShortExactly(events: seq<Event>, i: nat, forth: bool)
    requires Run(events).Some? && i < |Run(events).value.relays|
    ensures var l := LoopOf(Run(events).value.relays[i], forth);
            CutShort(events, i, forth) <==> Ending(l.pc) && l.sent != l.source
  {
    var before, e := events[..|events| - 1], events[|events| - 1];
    var s := Run(before).value;
    assert events == before + [e] && events[..|before|] == before;
    InvAlways(before);
    CutNow(before, e, i, forth);
    if i < |s.relays| {
      CutShortExactly(before, i, forth);
      assert RelayOk(s.relays[i]);
      hide Run, CutShort, Act, Can, LoopOk;
      CutStep(before, e, i, forth);
    } else {
      NotCutYet(before, i, forth);
    }
  }

  lemma CutStep(events: seq<Event>, e: Event, i: nat, forth: bool)
    requires Run(events).Some? && Enabled(Run(events).value, e) && i < |Run(events).value.relays|
    requires LoopOk(LoopOf(Run(events).value.relays[i], forth))
    ensures i < |Next(Run(events).value, e).relays|
    ensures Short(LoopOf(Next(Run(events).value, e).relays[i], forth)) <==>
            Short(LoopOf(Run(events).value.relays[i], forth)) || ShortWrite(events + [e], |events|, i, forth)
  {
    assert (events + [e])[..|events|] == events;
    var s := Run(events).value;
    hide Run, Enabled, Next;
    if ActionOf(e, i, forth).Some? {
      ActsOn(s, e, i, forth);
      ShortStep(LoopOf(s.relays[i], forth), ActionOf(e, i, forth).value);
    } else {
      OthersStand(s, e, i, forth);
    }
  }

  /** A loop's buffer can be as full as that: a run has a whole large buffer read and not yet sent. */
  lemma FullBufferInFlight(source: seq<Byte>)
    requires 262144 <= |source|
    ensures exists events ::
              && Run(events).Some? && 0 < |Run(events).value.relays|
              && var l := Run(events).value.relays[0].forth; l.source == source && l.read == 262144 && l.sent == []
  {
    var r0: seq<Event> := [];
    var e1 := Begin(Fresh(source, true), Fresh([], true));
    RunAppend(r0, e1);
    var r1 := r0 + [e1];
    RunAppend(r1, Forth(0, TakeBuffer));
    var r2 := r1 + [Forth(0, TakeBuffer)];
    RunAppend(r2, Forth(0, ReadSome(262144)));
    var r3 := r2 + [Forth(0, ReadSome(262144))];
    assert Run(r3).value.relays[0].forth.read == 262144;
  }

  lemma RunAppend(events: seq<Event>, e: Event)
    requires Run(events).Some? && Enabled(Run(events).value, e)
    ensures Run(events + [e]) == Some(Next(Run(events).value, e))
  {
    assert (events + [e])[..|events|] == events;
  }
}
