/** All buffer pools of the program together: they share one set of counters, users on any
    number of goroutines take and return buffers step by step, and the runtime evicts pooled
    buffers whenever it likes. */
module PoolLedger {
  import opened Text
  import opened Counting
  import opened Pool

  type Buf = nat

  /** A pool's tier. */
  datatype Shelf = Shelf(pool: nat, tier: Tier)

  /** A user between counting its request and counting its return. */
  datatype User =
    | Asking(from: Shelf)              // counted in Reused, no buffer yet
    | Holding(from: Shelf, buf: Buf)
    | Returning                        // buffer given back, not yet counted in PutBack
    | Gone

  datatype Ledger = Ledger(
    shelves: map<Shelf, set<Buf>>,
    size: map<Buf, nat>,               // every buffer ever made
    users: seq<User>,
    reused: nat, putBack: nat, dropped: nat)

  const EMPTY := Ledger(map[], map[], [], 0, 0, 0)

  datatype Event =
    | Ask(from: Shelf)                 // Get, GetSmall, GetLarge: count, then
    | TakeOld(u: nat, buf: Buf)        // ... a pooled buffer
    | MakeNew(u: nat, buf: Buf)        // ... or a new one
    | GiveToTier(u: nat)               // PutSmall, PutLarge
    | GiveBySize(u: nat)               // Put
    | CountBack(u: nat)
    | Warm(to: Shelf, buf: Buf)        // New fills a tier
    | Evict(at: Shelf, buf: Buf)

  function On(l: Ledger, s: Shelf): set<Buf> {
    if s in l.shelves then l.shelves[s] else {}
  }

  predicate Enabled(l: Ledger, e: Event) {
    match e
    case Ask(_) => true
    case TakeOld(u, b) => u < |l.users| && l.users[u].Asking? && b in On(l, l.users[u].from)
    case MakeNew(u, b) => u < |l.users| && l.users[u].Asking? && b !in l.size
    case GiveToTier(u) => u < |l.users| && l.users[u].Holding?
    case GiveBySize(u) => u < |l.users| && l.users[u].Holding? && l.users[u].buf in l.size
    case CountBack(u) => u < |l.users| && l.users[u].Returning?
    case Warm(_, b) => b !in l.size
    case Evict(_, _) => true
  }

  function Give(l: Ledger, u: nat, to: Shelf, buf: Buf): Ledger
    requires u < |l.users|
  {
    l.(users := l.users[u := Returning], shelves := l.shelves[to := On(l, to) + {buf}])
  }

  function Next(l: Ledger, e: Event): Ledger
    requires Enabled(l, e)
  {
    match e
    case Ask(s) => l.(users := l.users + [Asking(s)], reused := l.reused + 1)
    case TakeOld(u, b) =>
      var s := l.users[u].from;
      l.(users := l.users[u := Holding(s, b)], shelves := l.shelves[s := On(l, s) - {b}])
    case MakeNew(u, b) =>
      var s := l.users[u].from;
      l.(users := l.users[u := Holding(s, b)], size := l.size[b := SizeOf(s.tier)])
    case GiveToTier(u) => Give(l, u, l.users[u].from, l.users[u].buf)
    case GiveBySize(u) =>
      var t := TierFor(l.size[l.users[u].buf]);
      if t.None? then l.(users := l.users[u := Gone], dropped := l.dropped + 1)
      else Give(l, u, Shelf(l.users[u].from.pool, t.value), l.users[u].buf)
    case CountBack(u) => l.(users := l.users[u := Gone], putBack := l.putBack + 1)
    case Warm(s, b) => l.(shelves := l.shelves[s := On(l, s) + {b}], size := l.size[b := SizeOf(s.tier)])
    case Evict(s, b) => l.(shelves := l.shelves[s := On(l, s) - {b}])
  }

  function Run(events: seq<Event>): Option<Ledger> {
    if events == [] then Some(EMPTY)
    else
      var l := Run(events[..|events| - 1]);
      var e := events[|events| - 1];
      if l.Some? && Enabled(l.value, e) then Some(Next(l.value, e)) else None
  }

  predicate IsOut(u: User) { !u.Gone? }
  predicate IsHolding(u: User) { u.Holding? }

  /** Pooled buffers fit their tier and lie on one shelf. */
  ghost predicate ShelvesOk(l: Ledger) {
    && (forall s, b :: b in On(l, s) ==> b in l.size && l.size[b] == SizeOf(s.tier))
    && (forall s, t, b :: b in On(l, s) && b in On(l, t) ==> s == t)
  }

  /** Held buffers fit the tier asked for, lie on no shelf, and have one holder. */
  ghost predicate HoldersOk(l: Ledger) {
    && (forall i :: 0 <= i < |l.users| && l.users[i].Holding? ==>
          l.users[i].buf in l.size && l.size[l.users[i].buf] == SizeOf(l.users[i].from.tier))
    && (forall i, s :: 0 <= i < |l.users| && l.users[i].Holding? ==> l.users[i].buf !in On(l, s))
    && (forall i, j ::
          0 <= i < |l.users| && 0 <= j < |l.users| && l.users[i].Holding? && l.users[j].Holding? &&
          l.users[i].buf == l.users[j].buf ==>
          i == j)
  }

  predicate CountsOk(l: Ledger) {
    l.reused == l.putBack + l.dropped + Count(l.users, IsOut) && l.dropped == 0
  }

  ghost predicate Inv(l: Ledger) {
    ShelvesOk(l) && HoldersOk(l) && CountsOk(l)
  }

  lemma SizesFile(t: Tier)
    ensures TierFor(SizeOf(t)) == Some(t)
  {
  }

  lemma CountsStep(l: Ledger, e: Event)
    requires HoldersOk(l) && CountsOk(l) && Enabled(l, e)
    ensures CountsOk(Next(l, e))
  {
    match e
    case Ask(s) => CountAppend(l.users, Asking(s), IsOut);
    case TakeOld(u, b) => CountUpdate(l.users, u, Holding(l.users[u].from, b), IsOut);
    case MakeNew(u, b) => CountUpdate(l.users, u, Holding(l.users[u].from, b), IsOut);
    case GiveToTier(u) => CountUpdate(l.users, u, Returning, IsOut);
    case GiveBySize(u) =>
      SizesFile(l.users[u].from.tier);
      CountUpdate(l.users, u, Returning, IsOut);
    case CountBack(u) => CountUpdate(l.users, u, Gone, IsOut);
    case _ =>
  }

  /** Putting a buffer that nobody holds and no shelf has on the shelf of its size. */
  lemma PutKeeps(l: Ledger, v: Ledger, to: Shelf, b: Buf)
    requires ShelvesOk(l) && HoldersOk(l) && v.shelves == l.shelves[to := On(l, to) + {b}]
    requires forall s :: b !in On(l, s)
    requires (forall c :: c in l.size ==> c in v.size && v.size[c] == l.size[c])
             && b in v.size && v.size[b] == SizeOf(to.tier)
    requires |v.users| == |l.users|
    requires forall i :: 0 <= i < |v.users| && v.users[i].Holding? ==> v.users[i] == l.users[i] && v.users[i].buf != b
    ensures ShelvesOk(v) && HoldersOk(v)
  {
    assert forall s :: On(v, s) == if s == to then On(l, s) + {b} else On(l, s);
  }

  /** Taking a buffer off its shelf, into the hands of `u` if that is a user's number. */
  lemma TakeKeeps(l: Ledger, v: Ledger, from: Shelf, b: Buf, u: nat)
    requires ShelvesOk(l) && HoldersOk(l) && v.shelves == l.shelves[from := On(l, from) - {b}] && v.size == l.size
    requires |v.users| == |l.users|
    requires forall i :: 0 <= i < |v.users| && i != u ==> v.users[i] == l.users[i]
    requires u < |l.users| ==> b in On(l, from) && v.users[u] == Holding(from, b)
    ensures ShelvesOk(v) && HoldersOk(v)
  {
    assert forall s :: On(v, s) == if s == from then On(l, s) - {b} else On(l, s);
  }

  /** A new buffer, or a user without one. */
  lemma NewKeeps(l: Ledger, v: Ledger)
    requires ShelvesOk(l) && HoldersOk(l) && v.shelves == l.shelves && |l.users| <= |v.users|
    requires forall c :: c in l.size ==> c in v.size && v.size[c] == l.size[c]
    requires forall i :: 0 <= i < |v.users| && v.users[i].Holding? ==>
               || (i < |l.users| && v.users[i] == l.users[i])
               || (v.users[i].buf !in l.size && v.users[i].buf in v.size
                   && v.size[v.users[i].buf] == SizeOf(v.users[i].from.tier)
                   && forall j :: 0 <= j < |v.users| && v.users[j].Holding? && v.users[j].buf == v.users[i].buf ==>
                        j == i)
    ensures ShelvesOk(v) && HoldersOk(v)
  {
    assert forall s :: On(v, s) == On(l, s);
  }

  lemma BuffersStep(l: Ledger, e: Event)
    requires ShelvesOk(l) && HoldersOk(l) && Enabled(l, e)
    ensures ShelvesOk(Next(l, e)) && HoldersOk(Next(l, e))
  {
    var v := Next(l, e);
    match e
    case TakeOld(u, b) => TakeKeeps(l, v, l.users[u].from, b, u);
    case GiveToTier(u) => PutKeeps(l, v, l.users[u].from, l.users[u].buf);
    case GiveBySize(u) =>
      SizesFile(l.users[u].from.tier);
      PutKeeps(l, v, l.users[u].from, l.users[u].buf);
    case Warm(s, b) => PutKeeps(l, v, s, b);
    case Evict(s, b) => TakeKeeps(l, v, s, b, |l.users|);
    case _ => NewKeeps(l, v);
  }

  lemma {:induction false} InvAlways(events: seq<Event>)
    requires Run(events).Some?
    ensures Inv(Run(events).value)
  {
    if events == [] {
    } else {
      var l := Run(events[..|events| - 1]).value;
      InvAlways(events[..|events| - 1]);
      BuffersStep(l, events[|events| - 1]);
      CountsStep(l, events[|events| - 1]);
    }
  }

  /** No two users ever share a buffer, no held buffer can be handed out again, and every
      handed-out buffer has its tier's full length, in every pool and under any eviction. */
  lemma BuffersAreOwned(events: seq<Event>, i: nat)
    requires Run(events).Some?
    requires i < |Run(events).value.users| && Run(events).value.users[i].Holding?
    ensures var l := Run(events).value; var b := l.users[i].buf;
            && b in l.size && l.size[b] == SizeOf(l.users[i].from.tier)
            && (forall s :: b !in On(l, s))
            && (forall j :: 0 <= j < |l.users| && l.users[j].Holding? && l.users[j].buf == b ==> j == i)
  {
    InvAlways(events);
  }

  /** Conservation over all pools: every request counted is counted back, dropped, or still with
      a user; and no buffer a pool handed out is ever dropped. */
  lemma Conservation(events: seq<Event>)
    requires Run(events).Some?
    ensures var l := Run(events).value;
            l.reused == l.putBack + l.dropped + Count(l.users, IsOut) && l.dropped == 0
  {
    InvAlways(events);
  }

  /** Between steps, when nobody is half-way through a get or a put, what is out is what is held. */
  lemma ConservationAtRest(events: seq<Event>)
    requires Run(events).Some?
    requires forall i :: 0 <= i < |Run(events).value.users| ==>
               Run(events).value.users[i].Holding? || Run(events).value.users[i].Gone?
    ensures var l := Run(events).value; l.reused == l.putBack + l.dropped + Count(l.users, IsHolding)
  {
    InvAlways(events);
    SameCount(Run(events).value.users);
  }

  lemma {:induction false} SameCount(us: seq<User>)
    requires forall i :: 0 <= i < |us| ==> us[i].Holding? || us[i].Gone?
    ensures Count(us, IsOut) == Count(us, IsHolding)
  {
    if us == [] {
    } else {
      SameCount(us[..|us| - 1]);
    }
  }

  // ---- No buffer is lost but by eviction ----

  ghost predicate Evicted(events: seq<Event>, b: Buf) {
    exists k, s :: 0 <= k < |events| && events[k] == Evict(s, b)
  }

  predicate Held(l: Ledger, i: nat, b: Buf) {
    i < |l.users| && l.users[i].Holding? && l.users[i].buf == b
  }

  /** A pool has the buffer, or a user. */
  ghost predicate Kept(l: Ledger, b: Buf) {
    (exists s :: b in On(l, s)) || (exists i: nat :: Held(l, i, b))
  }

  lemma KeptStep(l: Ledger, e: Event, b: Buf)
    requires ShelvesOk(l) && HoldersOk(l) && Enabled(l, e) && b in Next(l, e).size
    requires b in l.size ==> Kept(l, b)
    ensures Kept(Next(l, e), b) || (e.Evict? && e.buf == b)
  {
    var v := Next(l, e);
    if b !in l.size {
      NewIsKept(l, e, b);
    } else if s :| b in On(l, s) {
      ShelvedStays(l, e, b, s);
    } else {
      var i: nat :| Held(l, i, b);
      HeldStays(l, e, b, i);
    }
  }

  lemma NewIsKept(l: Ledger, e: Event, b: Buf)
    requires Enabled(l, e) && b !in l.size && b in Next(l, e).size
    ensures Kept(Next(l, e), b)
  {
    if e.MakeNew? {
      assert Held(Next(l, e), e.u, b);
    } else {
      assert b in On(Next(l, e), e.to);
    }
  }

  lemma ShelvedStays(l: Ledger, e: Event, b: Buf, s: Shelf)
    requires Enabled(l, e) && b in On(l, s)
    ensures Kept(Next(l, e), b) || (e.Evict? && e.buf == b)
  {
    if e.TakeOld? && e.buf == b {
      assert Held(Next(l, e), e.u, b);
    } else {
      assert b in On(Next(l, e), s) || (e.Evict? && e.buf == b);
    }
  }

  lemma HeldStays(l: Ledger, e: Event, b: Buf, i: nat)
    requires HoldersOk(l) && Enabled(l, e) && Held(l, i, b)
    ensures Kept(Next(l, e), b)
  {
    if e == GiveToTier(i) {
      assert b in On(Next(l, e), l.users[i].from);
    } else if e == GiveBySize(i) {
      SizesFile(l.users[i].from.tier);
      assert b in On(Next(l, e), Shelf(l.users[i].from.pool, l.users[i].from.tier));
    } else {
      assert Held(Next(l, e), i, b);
    }
  }

  /** On every run every buffer ever made is in a pool or with a user, unless it was evicted; so what
      is given back can be handed out again. */
  lemma {:induction false} NothingIsLost(events: seq<Event>, b: Buf)
    requires Run(events).Some? && b in Run(events).value.size
    ensures Kept(Run(events).value, b) || Evicted(events, b)
  {
    var before, e := events[..|events| - 1], events[|events| - 1];
    var l := Run(before).value;
    InvAlways(before);
    if b in l.size {
      NothingIsLost(before, b);
    }
    if b in l.size && Evicted(before, b) {
      var k, s :| 0 <= k < |before| && before[k] == Evict(s, b);
      assert events[k] == Evict(s, b);
    } else {
      KeptStep(l, e, b);
      if e.Evict? && e.buf == b {
        assert events[|before|] == Evict(e.at, b);
      }
    }
  }
}
