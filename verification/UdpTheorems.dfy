/** When the tunnel's UDP sessions end, and on which timings its table and counters agree. */
module UdpTheorems {
  import opened Counting
  import opened Text
  import opened UdpSessions

  ghost predicate Reachable(w: World, t: Timing) {
    exists events :: Run(events, t) == Some(w)
  }

  lemma ReachNext(w: World, e: Event, t: Timing)
    requires Reachable(w, t) && Enabled(w, e, t)
    ensures Reachable(Next(w, e, t), t)
  {
    var events :| Run(events, t) == Some(w);
    assert (events + [e])[..|events|] == events;
    assert Run(events + [e], t) == Some(Next(w, e, t));
  }

  lemma ReachableIsSound(w: World, t: Timing)
    requires Timely(t) && Reachable(w, t)
    ensures Sound(w, t)
  {
    var events :| Run(events, t) == Some(w);
    SoundAlways(events, t);
  }

  lemma ReachableIsInv(w: World, t: Timing)
    requires Prompt(t) && Reachable(w, t)
    ensures Inv(w, t)
  {
    var events :| Run(events, t) == Some(w);
    InvAlways(events, t);
  }

  // ---- Why a session leaves the table ----

  lemma {:induction false} TimePasses(events: seq<Event>, n: nat, t: Timing)
    requires Run(events, t).Some? && n <= |events|
    ensures Run(events[..n], t).Some? && Run(events[..n], t).value.now <= Run(events, t).value.now
  {
    if n == |events| {
      assert events[..n] == events;
    } else {
      var before := events[..|events| - 1];
      assert before[..n] == events[..n];
      TimePasses(before, n, t);
    }
  }

  /** Every packet that reader `i` took from its upstream on this run, it took at `since` or before. */
  ghost predicate SilentSince(events: seq<Event>, i: nat, since: real, t: Timing) {
    forall n: nat :: n < |events| && events[n] == Receive(i) ==>
      Run(events[..n], t).Some? && Run(events[..n], t).value.now <= since
  }

  predicate HasDeadline(pc: Pc) {
    pc.Reading? || pc.Failed?
  }

  lemma SilentBefore(events: seq<Event>, e: Event, i: nat, since: real, t: Timing)
    requires SilentSince(events, i, since, t)
    requires e == Receive(i) ==> Run(events, t).Some? && Run(events, t).value.now <= since
    ensures SilentSince(events + [e], i, since, t)
  {
    var all := events + [e];
    forall n: nat | n < |all| && all[n] == Receive(i)
      ensures Run(all[..n], t).Some? && Run(all[..n], t).value.now <= since
    {
      assert all[..n] == events[..n];
      assert n == |events| ==> events[..n] == events;
    }
  }

  lemma AlwaysSilentSinceNow(events: seq<Event>, i: nat, t: Timing)
    requires Run(events, t).Some?
    ensures SilentSince(events, i, Run(events, t).value.now, t)
  {
    forall n: nat | n < |events| ensures Run(events[..n], t).Some?
                                         && Run(events[..n], t).value.now <= Run(events, t).value.now {
      TimePasses(events, n, t);
    }
  }

  /** A reader with a deadline set that is still in this read or has failed in it: only setting the
      deadline anew brings another time. */
  lemma DeadlineStands(w: World, e: Event, i: nat, t: Timing)
    requires Enabled(w, e, t) && At(Next(w, e, t), i) && HasDeadline(Next(w, e, t).objs[i].pc)
    ensures e != Receive(i) && At(w, i)
    ensures e != Arm(i) ==> HasDeadline(w.objs[i].pc) && w.objs[i].pc.armed == Next(w, e, t).objs[i].pc.armed
    ensures e == Arm(i) ==> Next(w, e, t).objs[i].pc.armed == w.now
  {
  }

  /** On every run a reader that waits for its upstream, or has just failed to hear from it, has
      taken no packet since it set its deadline. */
  lemma {:induction false} SilentSinceArmed(events: seq<Event>, i: nat, t: Timing)
    requires Run(events, t).Some?
    requires At(Run(events, t).value, i) && HasDeadline(Run(events, t).value.objs[i].pc)
    ensures SilentSince(events, i, Run(events, t).value.objs[i].pc.armed, t)
  {
    var before, e := events[..|events| - 1], events[|events| - 1];
    var w := Run(before, t).value;
    assert events == before + [e];
    DeadlineStands(w, e, i, t);
    if e == Arm(i) {
      AlwaysSilentSinceNow(before, i, t);
    } else {
      SilentSinceArmed(before, i, t);
    }
    SilentBefore(before, e, i, Run(events, t).value.objs[i].pc.armed, t);
  }

  lemma SilentEarlier(events: seq<Event>, i: nat, since: real, until: real, t: Timing)
    requires SilentSince(events, i, since, t) && since <= until
    ensures SilentSince(events, i, until, t)
  {
  }

  /** A step of a run takes a session out of the table exactly when it is a sweep and the session is
      idle, or a reader deletes the session's key.  A reader that deletes, met no network error and
      was not swept before has taken no packet from its upstream in the last two minutes of the
      run, whatever the client sent, and is not later than its timing allows.  Prompt readers leave
      the sweep nothing and delete only their own entry. */
  lemma LeavesExactly(events: seq<Event>, e: Event, t: Timing, key: Key)
    requires Timely(t) && Run(events, t).Some? && Enabled(Run(events, t).value, e, t)
    requires key in Run(events, t).value.sessions
    ensures At(Run(events, t).value, Run(events, t).value.sessions[key])
    ensures var w := Run(events, t).value; var i, v := w.sessions[key], Next(w, e, t);
            key !in v.sessions || v.sessions[key] != i <==>
            (e.Sweep? && w.now - w.objs[i].lastActivity > 180.0) || (e.Delete? && w.objs[e.i].key == key)
    ensures var w := Run(events, t).value;
            e.Delete? && !w.objs[e.i].pc.broken && !w.objs[e.i].closed ==>
              && SilentSince(events, e.i, w.now - 120.0, t)
              && w.now <= w.objs[e.i].pc.armed + 120.0 + t.late
    ensures var w := Run(events, t).value;
            Prompt(t) ==>
              && w.now - w.objs[w.sessions[key]].lastActivity <= 180.0
              && (e.Delete? && w.objs[e.i].key == key ==> e.i == w.sessions[key] && !w.objs[e.i].closed)
  {
    var w := Run(events, t).value;
    SoundAlways(events, t);
    LeavesKey(w, e, t, key);
    if e.Delete? {
      assert Recent(w.objs[e.i], w.now, t);
      SilentSinceArmed(events, e.i, t);
      if w.objs[e.i].pc.armed <= w.now - DEADLINE {
        SilentEarlier(events, e.i, w.objs[e.i].pc.armed, w.now - DEADLINE, t);
      }
    }
    if Prompt(t) {
      InvAlways(events, t);
      PromptLeaves(w, e, t, key);
    }
  }

  lemma LeavesKey(w: World, e: Event, t: Timing, key: Key)
    requires Sound(w, t) && Enabled(w, e, t) && key in w.sessions
    ensures var i, v := w.sessions[key], Next(w, e, t);
            key !in v.sessions || v.sessions[key] != i <==>
            (e.Sweep? && IsIdle(w.objs[i], w.now)) || (e.Delete? && w.objs[e.i].key == key)
  {
    assert key in Victims(w) <==> IsIdle(w.objs[w.sessions[key]], w.now);
  }

  lemma PromptLeaves(w: World, e: Event, t: Timing, key: Key)
    requires Inv(w, t) && Prompt(t) && Enabled(w, e, t) && key in w.sessions
    ensures !IsIdle(w.objs[w.sessions[key]], w.now)
    ensures e.Delete? && w.objs[e.i].key == key ==> e.i == w.sessions[key] && !w.objs[e.i].closed
  {
    NoVictims(w, t);
    assert key !in Victims(w);
    assert e.Delete? ==> Listed(w, e.i);
  }

  // ---- How idle a session is when it leaves ----

  /** Reader `i` is about to delete its session, `gap` after the session's last activity, and met
      no network error. */
  predicate EndsAfter(w: World, i: nat, gap: real) {
    && At(w, i) && w.objs[i].pc.Failed? && !w.objs[i].pc.broken && Listed(w, i)
    && w.now - w.objs[i].lastActivity == gap
  }

  ghost predicate CanEndAfter(t: Timing, gap: real) {
    exists w, i: nat :: Reachable(w, t) && EndsAfter(w, i, gap)
  }

  /** The latest a session can be deleted after its last activity. */
  function Latest(t: Timing): real {
    t.rearm + DEADLINE + t.late
  }

  /** The world of one session that is alone. */
  function Alone(now: real, last: real, pc: Pc): World {
    World(now, map[0 := 0], [Session(0, last, pc, 0, false)], Idle, 1, 1)
  }

  lemma FirstSession(t: Timing)
    requires Timely(t)
    ensures Reachable(Alone(0.0, 0.0, Arming), t)
  {
    var none: seq<Event> := [];
    assert Run(none, t) == Some(INITIAL);
    ReachNext(INITIAL, Packet(0), t);
    var w1 := Next(INITIAL, Packet(0), t);
    ReachNext(w1, DialWorks, t);
    var w2 := Next(w1, DialWorks, t);
    ReachNext(w2, CountTotal, t);
    var w3 := Next(w2, CountTotal, t);
    ReachNext(w3, Build, t);
    var w4 := Next(w3, Build, t);
    ReachNext(w4, Insert, t);
    assert Next(w4, Insert, t).objs == [Session(0, 0.0, Arming, 0, false)];
    assert Next(w4, Insert, t) == Alone(0.0, 0.0, Arming);
  }

  lemma Wait(now: real, last: real, pc: Pc, until: real, t: Timing)
    requires Reachable(Alone(now, last, pc), t) && now <= until
    requires InTime(Session(0, last, pc, 0, false), until, t)
    ensures Reachable(Alone(until, last, pc), t)
  {
    hide Reachable, InTime;
    var w, d := Alone(now, last, pc), until - now;
    assert now + d == until && w.objs == [Session(0, last, pc, 0, false)];
    assert Enabled(w, Tick(d), t);
    ReachNext(w, Tick(d), t);
    assert Next(w, Tick(d), t) == Alone(until, last, pc);
  }

  /** A packet from the client. */
  lemma ClientSends(now: real, last: real, pc: Pc, t: Timing)
    requires Reachable(Alone(now, last, pc), t)
    ensures Reachable(Alone(now, now, pc), t)
  {
    var w := Alone(now, last, pc);
    ReachNext(w, Packet(0), t);
    var w1 := Next(w, Packet(0), t);
    ReachNext(w1, Touch, t);
    assert Next(w1, Touch, t).objs == [Session(0, now, pc, 0, false)];
    assert Next(w1, Touch, t) == Alone(now, now, pc);
  }

  lemma SetDeadline(now: real, last: real, t: Timing)
    requires Reachable(Alone(now, last, Arming), t)
    ensures Reachable(Alone(now, last, Reading(now)), t)
  {
    var w := Alone(now, last, Arming);
    ReachNext(w, Arm(0), t);
    assert Next(w, Arm(0), t).objs == [Session(0, last, Reading(now), 0, false)];
    assert Next(w, Arm(0), t) == Alone(now, last, Reading(now));
  }

  lemma TimesOut(now: real, last: real, armed: real, t: Timing)
    requires Reachable(Alone(now, last, Reading(armed)), t) && armed + DEADLINE <= now
    ensures CanEndAfter(t, now - last)
  {
    var w := Alone(now, last, Reading(armed));
    ReachNext(w, Expire(0), t);
    assert EndsAfter(Next(w, Expire(0), t), 0, now - last);
  }

  lemma SlowSessionEarly(t: Timing, last: real)
    requires Timely(t) && 0.0 <= last <= t.rearm
    ensures Reachable(Alone(Latest(t), last, Reading(t.rearm)), t)
  {
    hide Reachable;
    FirstSession(t);
    Wait(0.0, 0.0, Arming, last, t);
    ClientSends(last, 0.0, Arming, t);
    Wait(last, last, Arming, t.rearm, t);
    SetDeadline(t.rearm, last, t);
    Wait(t.rearm, last, Reading(t.rearm), Latest(t), t);
  }

  lemma SlowSessionLate(t: Timing, last: real)
    requires Timely(t) && t.rearm <= last <= Latest(t)
    ensures Reachable(Alone(Latest(t), last, Reading(t.rearm)), t)
  {
    hide Reachable;
    FirstSession(t);
    Wait(0.0, 0.0, Arming, t.rearm, t);
    SetDeadline(t.rearm, 0.0, t);
    Wait(t.rearm, 0.0, Reading(t.rearm), last, t);
    ClientSends(last, 0.0, Reading(t.rearm), t);
    Wait(last, last, Reading(t.rearm), Latest(t), t);
  }

  /** A session as late as its timing allows, whose client last sent at `last`. */
  lemma SlowSession(t: Timing, last: real)
    requires Timely(t) && 0.0 <= last <= Latest(t)
    ensures Reachable(Alone(Latest(t), last, Reading(t.rearm)), t)
  {
    if last <= t.rearm {
      SlowSessionEarly(t, last);
    } else {
      SlowSessionLate(t, last);
    }
  }

  /** Without network errors a session may be deleted any time after its last activity up to the
      latest its timing allows: at once, when the client has just sent. */
  lemma IdleAtEndExactly(t: Timing, gap: real)
    requires Timely(t)
    ensures CanEndAfter(t, gap) <==> 0.0 <= gap <= t.rearm + 120.0 + t.late
  {
    if w, i: nat :| Reachable(w, t) && EndsAfter(w, i, gap) {
      ReachableIsSound(w, t);
      assert Recent(w.objs[i], w.now, t);
    }
    if 0.0 <= gap <= Latest(t) {
      SlowSession(t, Latest(t) - gap);
      TimesOut(Latest(t), Latest(t) - gap, t.rearm, t);
    }
  }

  /** The documented expiry after 3 minutes of inactivity.  That only sessions so long idle are
      ended is true on no timing: one whose client sends at that very moment may be.  That none
      is ended later is true exactly when rearming and being late together take at most a
      minute. */
  lemma ExpiryAsDocumented(t: Timing)
    requires Timely(t)
    ensures CanEndAfter(t, 0.0) && !(forall gap :: CanEndAfter(t, gap) ==> 180.0 <= gap)
    ensures (forall gap :: CanEndAfter(t, gap) ==> gap <= 180.0) <==> t.rearm + t.late <= 60.0
  {
    forall gap ensures CanEndAfter(t, gap) <==> 0.0 <= gap <= Latest(t) {
      IdleAtEndExactly(t, gap);
    }
    assert CanEndAfter(t, 0.0) && CanEndAfter(t, Latest(t));
  }

  // ---- On which timings the table and the counters agree ----

  ghost predicate NeverSweeps(t: Timing) {
    forall w :: Reachable(w, t) && Enabled(w, Sweep, t) ==> Next(w, Sweep, t) == w
  }

  /** The 3-minute sweep never changes anything, on any run, exactly when rearming and being late
      together take at most the minute that the idle limit exceeds the read deadline by. */
  lemma SweepIsIdleExactly(t: Timing)
    requires Timely(t)
    ensures NeverSweeps(t) <==> t.rearm + t.late <= 60.0
  {
    if t.rearm + t.late <= 60.0 {
      forall w | Reachable(w, t) && Enabled(w, Sweep, t) ensures Next(w, Sweep, t) == w {
        ReachableIsSound(w, t);
        SweepIdles(w, t);
      }
    } else {
      SlowSession(t, 0.0);
      var w := Alone(Latest(t), 0.0, Reading(t.rearm));
      assert 0 in Victims(w) && 0 !in Next(w, Sweep, t).sessions;
    }
  }

  ghost predicate AlwaysListed(t: Timing) {
    forall w :: Reachable(w, t) ==> EntriesLive(w) && ReadersListed(w)
  }

  ghost predicate AlwaysCountedOnce(t: Timing) {
    forall w :: Reachable(w, t) ==> CountedOnce(w)
  }

  ghost predicate ShareAlwaysTable(t: Timing) {
    forall w :: Reachable(w, t) ==> ShareIsTable(w)
  }

  /** Sweeping a session whose reader is still at work. */
  lemma SweptSession(t: Timing) returns (w: World)
    requires Timely(t) && 60.0 < t.rearm + t.late
    ensures Reachable(w, t) && w == World(Latest(t), map[], [Session(0, 0.0, Reading(t.rearm), 1, true)], Idle, 0, 1)
  {
    SlowSession(t, 0.0);
    var u := Alone(Latest(t), 0.0, Reading(t.rearm));
    assert Victims(u) == {0};
    ReachNext(u, Sweep, t);
    w := Next(u, Sweep, t);
    assert w.objs == [Session(0, 0.0, Reading(t.rearm), 1, true)];
    assert w.sessions == map[];
  }

  /** The reader of a swept session counts it out a second time. */
  lemma CountedTwice(t: Timing) returns (w: World)
    requires Timely(t) && 60.0 < t.rearm + t.late
    ensures Reachable(w, t) && w == World(Latest(t), map[], [Session(0, 0.0, Ended, 2, true)], Idle, -1, 1)
  {
    var w1 := SweptSession(t);
    ReachNext(w1, Shut(0), t);
    var w2 := Next(w1, Shut(0), t);
    ReachNext(w2, Delete(0), t);
    var w3 := Next(w2, Delete(0), t);
    ReachNext(w3, CountOut(0), t);
    w := Next(w3, CountOut(0), t);
    assert w.objs == [Session(0, 0.0, Ended, 2, true)];
    assert w.sessions == map[];
  }

  /** Entries and live readers correspond one to one on every run, every session is counted out
      once on every run, and the UDP share of the active count is the table size on every run
      but for sessions between two steps: each of them exactly when rearming and being late
      together take at most a minute. */
  lemma TableLawExactly(t: Timing)
    requires Timely(t)
    ensures AlwaysListed(t) <==> t.rearm + t.late <= 60.0
    ensures AlwaysCountedOnce(t) <==> t.rearm + t.late <= 60.0
    ensures ShareAlwaysTable(t) <==> t.rearm + t.late <= 60.0
  {
    if t.rearm + t.late <= 60.0 {
      forall w | Reachable(w, t)
        ensures EntriesLive(w) && ReadersListed(w) && CountedOnce(w) && ShareIsTable(w)
      {
        ReachableIsInv(w, t);
      }
    } else {
      var w := SweptSession(t);
      assert !Listed(w, 0) && !ReadersListed(w);
      var v := CountedTwice(t);
      assert v.objs[0].outs == 2 && !CountedOnce(v);
      assert v.objs[..0] == [] && Count(v.objs, IsRemoved) == 0;
      assert !ShareIsTable(v);
    }
  }
}
