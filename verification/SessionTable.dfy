/** The UDP session table as the tunnel keeps it: a map from client to session object, which
    dispatcher, readers and sweeper change in place, and the proof that the objects do on every
    run what the transition system says. */
module SessionTable {
  import opened Text
  import opened UdpSessions

  lemma RemoveMore<K, V>(m: map<K, V>, gone: set<K>, k: K)
    requires k !in gone
    ensures (m - gone) - {k} == m - (gone + {k}) && |gone + {k}| == |gone| + 1
  {
  }

  class UdpSession {
    var lastActivity: real
    var closed: bool

    constructor (now: real)
      ensures lastActivity == now && !closed
    {
      lastActivity, closed := now, false;
    }

    method Touch(now: real)
      modifies this`lastActivity
      ensures lastActivity == now
    {
      lastActivity := now;
    }
  }

  class Table {
    var sessions: map<Key, UdpSession>
    var active: int
    var total: nat

    constructor ()
      ensures sessions == map[] && active == 0 && total == 0
    {
      sessions, active, total := map[], 0, 0;
    }

    /** No session is under two keys. */
    ghost predicate Separate()
      reads this
    {
      forall k, l :: k in sessions && l in sessions && sessions[k] == sessions[l] ==> k == l
    }

    /** The entries idle for too long. */
    ghost function IdleKeys(now: real): set<Key>
      reads this, sessions.Values
    {
      set k | k in sessions && now - sessions[k].lastActivity > IDLE_LIMIT
    }

    /** The sweeper's look at one entry. */
    method Visit(key: Key, now: real) returns (idle: bool)
      requires key in sessions
      modifies this`sessions, this`active, {sessions[key]}`closed
      ensures idle <==> now - old(sessions)[key].lastActivity > 180.0
      ensures sessions == if idle then old(sessions) - {key} else old(sessions)
      ensures active == old(active) - if idle then 1 else 0
      ensures old(sessions)[key].closed == (old(sessions[key].closed) || idle)
    {
      var s := sessions[key];
      idle := now - s.lastActivity > IDLE_LIMIT;
      if idle {
        s.closed := true;
        sessions := sessions - {key};
        active := active - 1;
      }
    }

    /** One tick of the sweeper: visit every entry; close, remove and count out the idle ones, and
        leave every other entry and session alone. */
    method Sweep(now: real)
      requires Separate()
      modifies this`sessions, this`active, sessions.Values`closed
      ensures sessions == old(sessions) - old(IdleKeys(now))
      ensures forall k :: k in old(sessions) ==> (k in sessions <==> now - old(sessions[k].lastActivity) <= 180.0)
      ensures active == old(active) - |old(IdleKeys(now))|
      ensures forall k :: k in old(sessions) ==>
                old(sessions)[k].closed == (old(sessions[k].closed) || k in old(IdleKeys(now)))
    {
      ghost var all := sessions;
      assert forall k, l :: k in all && l in all && all[k] == all[l] ==> k == l;
      ghost var idle := IdleKeys(now);
      var todo := sessions.Keys;
      ghost var gone: set<Key> := {};
      while todo != {}
        invariant todo <= all.Keys && gone <= all.Keys && todo !! gone
        invariant sessions == all - gone && active == old(active) - |gone|
        invariant forall k :: k in all && k !in todo ==> (k in gone <==> k in idle)
        invariant forall k :: k in all ==> all[k].closed == (old(all[k].closed) || k in gone)
        decreases todo
      {
        var k :| k in todo;
        assert k in sessions && sessions[k] == all[k];
        var out := Visit(k, now);
        assert out <==> k in idle;
        todo := todo - {k};
        if out {
          RemoveMore(all, gone, k);
          gone := gone + {k};
        }
      }
      assert gone == idle;
    }
  }

  // ---- The objects against the transition system ----

  /** The objects made so far stand for the sessions of `w`, and the table for its table. */
  ghost predicate Represents(table: Table, objs: seq<UdpSession>, w: World)
    reads table, objs
  {
    && |objs| == |w.objs|
    && (forall i, j :: 0 <= i < j < |objs| ==> objs[i] != objs[j])
    && (forall i :: 0 <= i < |objs| ==>
          objs[i].lastActivity == w.objs[i].lastActivity && objs[i].closed == w.objs[i].closed)
    && table.sessions.Keys == w.sessions.Keys
    && (forall k :: k in w.sessions ==> w.sessions[k] < |objs| && table.sessions[k] == objs[w.sessions[k]])
    && table.active == w.share && table.total == w.total
  }

  /** The sweep over objects is the sweep of the transition system. */
  method SweepAll(table: Table, objs: seq<UdpSession>, w: World)
    requires Represents(table, objs, w) && EntriesLive(w)
    modifies table`sessions, table`active, objs
    ensures Represents(table, objs, SweepOut(w))
  {
    ghost var idle := table.IdleKeys(w.now);
    assert idle == Victims(w);
    table.Sweep(w.now);
    forall i | 0 <= i < |objs|
      ensures objs[i].closed == (w.objs[i].closed || (w.objs[i].key in idle && w.sessions[w.objs[i].key] == i))
    {
      if Listed(w, i) {
        assert old(table.sessions)[w.objs[i].key] == objs[i];
      } else {
        assert objs[i] !in old(table.sessions).Values;
      }
    }
  }

  predicate SessionEvent(e: Event) {
    e.Touch? || e.Update? || e.Build?
  }

  /** The steps that make or change a session object. */
  method PerformSession(table: Table, objs: seq<UdpSession>, w: World, e: Event, t: Timing)
    returns (all: seq<UdpSession>)
    requires SessionEvent(e) && Represents(table, objs, w) && EntriesLive(w) && DispatcherOk(w) && Enabled(w, e, t)
    modifies objs
    ensures Represents(table, all, Next(w, e, t))
    ensures objs <= all && forall i :: |objs| <= i < |all| ==> fresh(all[i])
  {
    all := objs;
    match e
    case Touch => objs[w.dispatcher.i].Touch(w.now);
    case Update(i) => objs[i].Touch(w.now);
    case Build =>
      var made := new UdpSession(w.now);
      all := objs + [made];
  }

  /** The other steps change the table and the counters, or nothing here. */
  method PerformTable(table: Table, objs: seq<UdpSession>, w: World, e: Event, t: Timing)
    requires !SessionEvent(e) && !e.Sweep?
    requires Represents(table, objs, w) && EntriesLive(w) && DispatcherOk(w) && Enabled(w, e, t)
    modifies table
    ensures Represents(table, objs, Next(w, e, t))
  {
    match e
    case DialWorks => table.active := table.active + 1;
    case CountTotal => table.total := table.total + 1;
    case Insert =>
      var i := w.dispatcher.i;
      table.sessions := table.sessions[w.objs[i].key := objs[i]];
    case Delete(i) => table.sessions := table.sessions - {w.objs[i].key};
    case CountOut(i) => table.active := table.active - 1;
    case _ =>
  }

  /** One step carried out on the objects. */
  method Perform(table: Table, objs: seq<UdpSession>, w: World, e: Event, t: Timing) returns (all: seq<UdpSession>)
    requires Represents(table, objs, w) && EntriesLive(w) && DispatcherOk(w) && Enabled(w, e, t)
    modifies table, objs
    ensures Represents(table, all, Next(w, e, t))
    ensures objs <= all && forall i :: |objs| <= i < |all| ==> fresh(all[i])
  {
    all := objs;
    if SessionEvent(e) {
      all := PerformSession(table, objs, w, e, t);
    } else if e.Sweep? {
      SweepAll(table, objs, w);
    } else {
      PerformTable(table, objs, w, e, t);
    }
  }

  /** On every run the table, the sessions and the counters are those of the transition system. */
  method Replay(events: seq<Event>, t: Timing) returns (table: Table, objs: seq<UdpSession>)
    requires Timely(t) && Run(events, t).Some?
    ensures fresh(table) && forall i :: 0 <= i < |objs| ==> fresh(objs[i])
    ensures Represents(table, objs, Run(events, t).value)
  {
    if events == [] {
      table := new Table();
      objs := [];
    } else {
      var before := events[..|events| - 1];
      SoundAlways(before, t);
      table, objs := Replay(before, t);
      objs := Perform(table, objs, Run(before, t).value, events[|events| - 1], t);
    }
  }
}
