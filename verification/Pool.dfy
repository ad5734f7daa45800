/** The tiered buffer pool: several pools share one set of counters, a request may get a new
    buffer though one is pooled, as after an eviction, and every user takes a buffer, holds it and
    gives it back. */
module Pool {
  import opened Text
  import opened Socks5

  const SMALL: nat := 4096
  const MEDIUM: nat := 65536
  const LARGE: nat := 262144

  datatype Tier = Small | Medium | Large

  function SizeOf(t: Tier): nat {
    match t
    case Small => SMALL
    case Medium => MEDIUM
    case Large => LARGE
  }

  /** Where Put files a buffer of this capacity; None when it is dropped. */
  function TierFor(capacity: nat): Option<Tier> {
    if capacity >= LARGE then Some(Large)
    else if capacity >= MEDIUM then Some(Medium)
    else if capacity >= SMALL then Some(Small)
    else None
  }

  /** The sizes in bytes, and where a buffer of any capacity goes: to the largest tier it fills. */
  lemma TiersExactly(capacity: nat)
    ensures SizeOf(Small) == 4096 && SizeOf(Medium) == 65536 && SizeOf(Large) == 262144
    ensures TierFor(capacity) == Some(Large) <==> 262144 <= capacity
    ensures TierFor(capacity) == Some(Medium) <==> 65536 <= capacity < 262144
    ensures TierFor(capacity) == Some(Small) <==> 4096 <= capacity < 65536
    ensures TierFor(capacity) == None <==> capacity < 4096
  {
  }

  // ---- The pool itself, over real buffers ----

  class Stats {
    var allocations: nat
    var reused: nat
    var putBack: nat
    var dropped: nat

    constructor ()
      ensures allocations == reused == putBack == dropped == 0
    {
      allocations, reused, putBack, dropped := 0, 0, 0, 0;
    }
  }

  class BufferPool {
    var tiers: map<Tier, set<array<Byte>>>
    const stats: Stats

    ghost predicate Complete()
      reads this
    {
      forall t: Tier :: t in tiers
    }

    /** No pooled buffer is shorter than its tier says. */
    ghost predicate Valid()
      reads this
    {
      Complete() && forall t: Tier, b :: b in tiers[t] ==> SizeOf(t) <= b.Length
    }

    /** Every pooled buffer is as long as its tier says, neither less nor more. */
    ghost predicate Exact()
      reads this
    {
      Valid() && forall t: Tier, b :: b in tiers[t] ==> b.Length == SizeOf(t)
    }

    /** New: each tier is warmed by getting and putting in turn, which may bring the same
        buffer again; the user-facing counters stay as they were. */
    constructor (stats: Stats)
      modifies stats`allocations
      ensures Exact() && this.stats == stats
      ensures forall t: Tier, b :: b in tiers[t] ==> fresh(b)
      ensures forall t: Tier :: 1 <= |tiers[t]| <= 128
      ensures stats.allocations == old(stats.allocations) + |tiers[Small]| + |tiers[Medium]| + |tiers[Large]|
    {
      this.stats := stats;
      tiers := map[Small := {}, Medium := {}, Large := {}];
      new;
      forall t: Tier ensures t in tiers {
        match t
        case Small =>
        case Medium =>
        case Large =>
      }
      for i := 0 to 128
        invariant Exact() && this.stats == stats
        invariant forall t: Tier, b :: b in tiers[t] ==> fresh(b)
        invariant forall t: Tier :: |tiers[t]| <= i && (0 < i ==> tiers[t] != {})
        invariant stats.allocations
                  == old(stats.allocations) + |tiers[Small]| + |tiers[Medium]| + |tiers[Large]|
      {
        Warm(Small);
        Warm(Medium);
        Warm(Large);
      }
    }

    method Warm(t: Tier)
      requires Exact()
      modifies this`tiers, stats`allocations
      ensures Exact() && forall u: Tier, b :: b in tiers[u] ==> b in old(tiers)[u] || fresh(b)
      ensures forall u: Tier :: u != t ==> tiers[u] == old(tiers)[u]
      ensures tiers[t] != {} && |tiers[t]| <= |old(tiers)[t]| + 1
      ensures stats.allocations == old(stats.allocations) + |tiers[t]| - |old(tiers)[t]|
    {
      var b := Take(t);
      tiers := tiers[t := tiers[t] + {b}];
      assert if b in old(tiers)[t] then tiers[t] == old(tiers)[t] else tiers[t] == old(tiers)[t] + {b};
    }

    /** sync.Pool.Get: some pooled buffer, or a new one, as the runtime likes. */
    method Take(t: Tier) returns (b: array<Byte>)
      requires Valid()
      modifies this`tiers, stats`allocations
      ensures Valid() && (old(Exact()) ==> Exact() && b.Length == SizeOf(t))
      ensures SizeOf(t) <= b.Length
      ensures b in old(tiers)[t] || fresh(b)
      ensures tiers == old(tiers)[t := old(tiers)[t] - {b}]
      ensures stats.allocations == old(stats.allocations) + if b in old(tiers)[t] then 0 else 1
    {
      var hit: bool := *;
      ghost var was := tiers[t];
      if hit && tiers[t] != {} {
        b :| b in tiers[t];
        tiers := tiers[t := tiers[t] - {b}];
      } else {
        b := new Byte[SizeOf(t)](_ => 0);
        stats.allocations := stats.allocations + 1;
        assert b !in was && was - {b} == was;
      }
    }

    /** Get, GetSmall and GetLarge. */
    method Get(t: Tier) returns (b: array<Byte>)
      requires Valid()
      modifies this`tiers, stats`allocations, stats`reused
      ensures Valid() && (old(Exact()) ==> Exact() && b.Length == SizeOf(t))
      ensures b in old(tiers)[t] || fresh(b)
      ensures tiers == old(tiers)[t := old(tiers)[t] - {b}]
      ensures stats.reused == old(stats.reused) + 1
    {
      stats.reused := stats.reused + 1;
      b := Take(t);
    }

    /** Put: filed by capacity; nil is ignored. */
    method Put(b: array?<Byte>)
      requires Valid()
      modifies this`tiers, stats`putBack, stats`dropped
      ensures Valid()
      ensures if b == null then Same(old(tiers), old(stats.putBack), old(stats.dropped))
              else match TierFor(b.Length)
                   case Some(t) =>
                     Same(old(tiers)[t := old(tiers)[t] + {b}], old(stats.putBack) + 1, old(stats.dropped))
                   case None => Same(old(tiers), old(stats.putBack), old(stats.dropped) + 1)
      ensures old(Exact()) && (b != null ==> b.Length in {SMALL, MEDIUM, LARGE}) ==> Exact()
    {
      if b == null {
        return;
      }
      if b.Length >= LARGE {
        tiers := tiers[Large := tiers[Large] + {b}];
      } else if b.Length >= MEDIUM {
        tiers := tiers[Medium := tiers[Medium] + {b}];
      } else if b.Length >= SMALL {
        tiers := tiers[Small := tiers[Small] + {b}];
      } else {
        stats.dropped := stats.dropped + 1;
        return;
      }
      stats.putBack := stats.putBack + 1;
    }

    ghost predicate Same(ts: map<Tier, set<array<Byte>>>, putBack: nat, dropped: nat)
      reads this, stats
    {
      tiers == ts && stats.putBack == putBack && stats.dropped == dropped
    }

    /** PutSmall and PutLarge: filed where the caller says, whatever its length; nil is ignored.
        The tiers keep their sizes if the buffer has its own. */
    method PutIn(t: Tier, b: array?<Byte>)
      requires Complete()
      modifies this`tiers, stats`putBack
      ensures Complete()
      ensures old(Valid()) ==> (Valid() <==> (b != null ==> SizeOf(t) <= b.Length))
      ensures old(Exact()) ==> (Exact() <==> (b != null ==> b.Length == SizeOf(t)))
      ensures if b == null then Same(old(tiers), old(stats.putBack), old(stats.dropped))
              else Same(old(tiers)[t := old(tiers)[t] + {b}], old(stats.putBack) + 1, old(stats.dropped))
    {
      if b == null {
        return;
      }
      tiers := tiers[t := tiers[t] + {b}];
      stats.putBack := stats.putBack + 1;
    }
  }
}
