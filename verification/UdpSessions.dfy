/** The tunnel's UDP session table: one dispatcher that creates sessions, a reader for each with
    a 2-minute read deadline, and a sweeper that removes sessions idle for over 3 minutes.
    Seconds of real time pass between steps; the sweeper may look at any moment. */
module UdpSessions {
  import opened Text
  import opened Counting

  const DEADLINE: real := 120.0
  const IDLE_LIMIT: real := 180.0

  type Key = nat

  /** Where a session's reader is.  `armed` is when it last set its read deadline. */
  datatype Pc =
    | Made                    // built by the dispatcher, not in the table yet
    | Arming                  // about to set the deadline
    | Reading(armed: real)
    | Got(armed: real)        // a packet came, lastActivity not updated yet
    | Failed(armed: real, broken: bool)  // entry not deleted yet; `broken`: by a network error
    | Removed                 // entry deleted, not counted out yet
    | Ended

  /** `outs` is how often ConnsActive was decremented for the session, `closed` whether the
      sweeper closed its connection. */
  datatype Session = Session(key: Key, lastActivity: real, pc: Pc, outs: nat, closed: bool)

  datatype Dispatcher =
    | Idle
    | Touching(i: nat)        // an existing session was found
    | Dialing(key: Key)
    | Counting(key: Key)      // counted as active, not in the total yet
    | Building(key: Key)      // counted in, session not built yet
    | Inserting(i: nat)

  /** `share` and `total` are the UDP parts of ConnsActive and ConnsTotal. */
  datatype World = World(
    now: real, sessions: map<Key, nat>, objs: seq<Session>, dispatcher: Dispatcher, share: int, total: nat)

  const INITIAL := World(0.0, map[], [], Idle, 0, 0)

  datatype Event =
    | Tick(d: real)
    | Packet(key: Key)
    | Touch
    | DialFails
    | DialWorks
    | CountTotal
    | Build
    | Insert
    | Arm(i: nat)
    | Receive(i: nat)
    | Update(i: nat)
    | Expire(i: nat)          // the read deadline has passed
    | Shut(i: nat)            // the sweeper closed the connection
    | Break(i: nat)           // any other read error
    | Delete(i: nat)
    | CountOut(i: nat)
    | Sweep

  /** How prompt readers are: a reader sets its deadline at most `rearm` after the session's last
      activity, and acts at most `late` after the deadline has passed. */
  datatype Timing = Timing(rearm: real, late: real)

  predicate Timely(t: Timing) {
    0.0 <= t.rearm && 0.0 <= t.late
  }

  predicate InTime(s: Session, now: real, t: Timing) {
    match s.pc
    case Made | Arming => now <= s.lastActivity + t.rearm
    case Reading(armed) => now <= armed + DEADLINE + t.late
    case Got(armed) => now <= armed + DEADLINE + t.late
    case Failed(armed, _) => now <= armed + DEADLINE + t.late
    case _ => true
  }

  predicate At(w: World, i: nat) {
    i < |w.objs|
  }

  predicate EntriesExist(w: World) {
    forall k :: k in w.sessions ==> w.sessions[k] < |w.objs|
  }

  predicate Enabled(w: World, e: Event, t: Timing) {
    match e
    case Tick(d) => 0.0 <= d && forall i :: 0 <= i < |w.objs| ==> InTime(w.objs[i], w.now + d, t)
    case Packet(_) => w.dispatcher.Idle?
    case Touch => w.dispatcher.Touching? && At(w, w.dispatcher.i)
    case DialFails => w.dispatcher.Dialing?
    case DialWorks => w.dispatcher.Dialing?
    case CountTotal => w.dispatcher.Counting?
    case Build => w.dispatcher.Building?
    case Insert => w.dispatcher.Inserting? && At(w, w.dispatcher.i)
    case Arm(i) => At(w, i) && w.objs[i].pc.Arming?
    case Receive(i) => At(w, i) && w.objs[i].pc.Reading? && !w.objs[i].closed
    case Update(i) => At(w, i) && w.objs[i].pc.Got?
    case Expire(i) => At(w, i) && w.objs[i].pc.Reading? && w.objs[i].pc.armed + DEADLINE <= w.now
    case Shut(i) => At(w, i) && w.objs[i].pc.Reading? && w.objs[i].closed
    case Break(i) => At(w, i) && w.objs[i].pc.Reading?
    case Delete(i) => At(w, i) && w.objs[i].pc.Failed?
    case CountOut(i) => At(w, i) && w.objs[i].pc.Removed?
    case Sweep => EntriesExist(w)
  }

  function Put(w: World, i: nat, s: Session): World
    requires i < |w.objs|
  {
    w.(objs := w.objs[i := s])
  }

  predicate IsIdle(s: Session, now: real) {
    now - s.lastActivity > IDLE_LIMIT
  }

  /** The entries a sweep removes. */
  function Victims(w: World): set<Key>
    requires EntriesExist(w)
  {
    set k | k in w.sessions && IsIdle(w.objs[w.sessions[k]], w.now)
  }

  /** A swept session is closed and counted out by the sweeper; its reader will fail, delete
      whatever is under the key by then, and count it out again. */
  function SweepOut(w: World): World
    requires EntriesExist(w)
  {
    var v := Victims(w);
    w.(sessions := w.sessions - v,
       share := w.share - |v|,
       objs := seq(|w.objs|, i requires 0 <= i < |w.objs| =>
         if w.objs[i].key in v && w.sessions[w.objs[i].key] == i
         then w.objs[i].(outs := w.objs[i].outs + 1, closed := true) else w.objs[i]))
  }

  function Next(w: World, e: Event, t: Timing): World
    requires Enabled(w, e, t)
  {
    match e
    case Tick(d) => w.(now := w.now + d)
    case Packet(key) =>
      w.(dispatcher := if key in w.sessions then Touching(w.sessions[key]) else Dialing(key))
    case Touch =>
      var i := w.dispatcher.i;
      Put(w, i, w.objs[i].(lastActivity := w.now)).(dispatcher := Idle)
    case DialFails => w.(dispatcher := Idle)
    case DialWorks => w.(dispatcher := Counting(w.dispatcher.key), share := w.share + 1)
    case CountTotal => w.(dispatcher := Building(w.dispatcher.key), total := w.total + 1)
    case Build =>
      w.(objs := w.objs + [Session(w.dispatcher.key, w.now, Made, 0, false)], dispatcher := Inserting(|w.objs|))
    case Insert =>
      var i := w.dispatcher.i;
      Put(w, i, w.objs[i].(pc := Arming)).(sessions := w.sessions[w.objs[i].key := i], dispatcher := Idle)
    case Arm(i) => Put(w, i, w.objs[i].(pc := Reading(w.now)))
    case Receive(i) => Put(w, i, w.objs[i].(pc := Got(w.objs[i].pc.armed)))
    case Update(i) => Put(w, i, w.objs[i].(pc := Arming, lastActivity := w.now))
    case Expire(i) => Put(w, i, w.objs[i].(pc := Failed(w.objs[i].pc.armed, false)))
    case Shut(i) => Put(w, i, w.objs[i].(pc := Failed(w.objs[i].pc.armed, false)))
    case Break(i) => Put(w, i, w.objs[i].(pc := Failed(w.objs[i].pc.armed, true)))
    case Delete(i) => Put(w, i, w.objs[i].(pc := Removed)).(sessions := w.sessions - {w.objs[i].key})
    case CountOut(i) =>
      Put(w, i, w.objs[i].(pc := Ended, outs := w.objs[i].outs + 1)).(share := w.share - 1)
    case Sweep => SweepOut(w)
  }

  function Run(events: seq<Event>, t: Timing): Option<World> {
    if events == [] then Some(INITIAL)
    else
      var w := Run(events[..|events| - 1], t);
      var e := events[|events| - 1];
      if w.Some? && Enabled(w.value, e, t) then Some(Next(w.value, e, t)) else None
  }

  // ---- What holds for readers of any promptness ----

  predicate InTable(pc: Pc) {
    pc.Arming? || pc.Reading? || pc.Got? || pc.Failed?
  }

  predicate IsRemoved(s: Session) {
    s.pc.Removed?
  }

  /** The last activity is no older than the timing allows, and a read that failed without a
      network error was past its deadline or its connection closed by the sweeper. */
  predicate Recent(s: Session, now: real, t: Timing) {
    && s.lastActivity <= now
    && InTime(s, now, t)
    && match s.pc
       case Reading(armed) => armed <= s.lastActivity + t.rearm
       case Got(armed) => armed <= s.lastActivity + t.rearm
       case Failed(armed, broken) =>
         armed <= s.lastActivity + t.rearm && (broken || s.closed || armed + DEADLINE <= now)
       case _ => true
  }

  ghost predicate TimesOk(w: World, t: Timing) {
    forall i :: 0 <= i < |w.objs| ==> Recent(w.objs[i], w.now, t)
  }

  /** A session's entry is in the table. */
  predicate Listed(w: World, i: nat)
    requires i < |w.objs|
  {
    w.objs[i].key in w.sessions && w.sessions[w.objs[i].key] == i
  }

  /** Every table entry is a live reader's. */
  ghost predicate EntriesLive(w: World) {
    forall k :: k in w.sessions ==>
      w.sessions[k] < |w.objs| && w.objs[w.sessions[k]].key == k && InTable(w.objs[w.sessions[k]].pc)
  }

  /** The dispatcher's key is free, and the session it is about to insert is the one not yet in. */
  ghost predicate DispatcherOk(w: World) {
    && (forall i :: 0 <= i < |w.objs| && w.objs[i].pc.Made? ==> w.dispatcher == Inserting(i))
    && match w.dispatcher
       case Idle => true
       case Touching(i) => i < |w.objs|
       case Dialing(key) => key !in w.sessions
       case Counting(key) => key !in w.sessions
       case Building(key) => key !in w.sessions
       case Inserting(i) => i < |w.objs| && w.objs[i].pc.Made? && w.objs[i].key !in w.sessions
  }

  /** Every session built was added to the total once. */
  predicate TotalOk(w: World) {
    w.total == |w.objs| + if w.dispatcher.Building? then 1 else 0
  }

  ghost predicate Sound(w: World, t: Timing) {
    TimesOk(w, t) && EntriesLive(w) && DispatcherOk(w) && TotalOk(w)
  }

  lemma TimesStep(w: World, e: Event, t: Timing)
    requires TimesOk(w, t) && DispatcherOk(w) && Enabled(w, e, t) && Timely(t)
    ensures TimesOk(Next(w, e, t), t)
  {
  }

  lemma EntriesLiveStep(w: World, e: Event, t: Timing)
    requires EntriesLive(w) && DispatcherOk(w) && Enabled(w, e, t)
    ensures EntriesLive(Next(w, e, t))
  {
    if !e.Insert? && !e.Delete? {
      EntriesStayLive(w, Next(w, e, t));
    }
  }

  /** The step changes session `s` to `v` without moving its reader in or out. */
  predicate SameEntry(s: Session, v: Session) {
    v.key == s.key && (InTable(v.pc) <==> InTable(s.pc))
  }

  lemma EntriesStayLive(w: World, v: World)
    requires EntriesLive(w) && |w.objs| <= |v.objs|
    requires forall k :: k in v.sessions ==> k in w.sessions && v.sessions[k] == w.sessions[k]
    requires forall i :: 0 <= i < |w.objs| ==> SameEntry(w.objs[i], v.objs[i])
    ensures EntriesLive(v)
  {
    forall k | k in v.sessions
      ensures v.sessions[k] < |v.objs| && v.objs[v.sessions[k]].key == k && InTable(v.objs[v.sessions[k]].pc)
    {
      assert SameEntry(w.objs[w.sessions[k]], v.objs[v.sessions[k]]);
    }
  }

  lemma DispatcherStep(w: World, e: Event, t: Timing)
    requires EntriesLive(w) && DispatcherOk(w) && Enabled(w, e, t)
    ensures DispatcherOk(Next(w, e, t))
  {
  }

  lemma SoundStep(w: World, e: Event, t: Timing)
    requires Sound(w, t) && Enabled(w, e, t) && Timely(t)
    ensures Sound(Next(w, e, t), t)
  {
    TimesStep(w, e, t);
    EntriesLiveStep(w, e, t);
    DispatcherStep(w, e, t);
  }

  lemma {:induction false} SoundAlways(events: seq<Event>, t: Timing)
    requires Timely(t) && Run(events, t).Some?
    ensures Sound(Run(events, t).value, t)
  {
    if events == [] {
    } else {
      SoundAlways(events[..|events| - 1], t);
      SoundStep(Run(events[..|events| - 1], t).value, events[|events| - 1], t);
    }
  }

  // ---- What holds for prompt readers ----

  /** Every live reader's session is in the table and its connection open. */
  ghost predicate ReadersListed(w: World) {
    forall i :: 0 <= i < |w.objs| && InTable(w.objs[i].pc) ==> Listed(w, i)
  }

  predicate NoneClosed(w: World) {
    forall i :: 0 <= i < |w.objs| ==> !w.objs[i].closed
  }

  /** A session is counted out once, when its reader ends. */
  predicate CountedOnce(w: World) {
    forall i :: 0 <= i < |w.objs| ==> w.objs[i].outs == if w.objs[i].pc.Ended? then 1 else 0
  }

  /** The dispatcher has counted a session in that is not in the table. */
  predicate Between(d: Dispatcher) {
    d.Counting? || d.Building? || d.Inserting?
  }

  /** The UDP share of ConnsActive is the table's size, plus the sessions between the two steps
      of entering or of leaving. */
  predicate ShareIsTable(w: World) {
    w.share == |w.sessions| + Count(w.objs, IsRemoved)
               + if Between(w.dispatcher) then 1 else 0
  }

  ghost predicate Inv(w: World, t: Timing) {
    Sound(w, t) && ReadersListed(w) && NoneClosed(w) && CountedOnce(w) && ShareIsTable(w)
  }

  predicate Prompt(t: Timing) {
    Timely(t) && t.rearm + t.late <= IDLE_LIMIT - DEADLINE
  }

  /** A sweep under prompt readers finds nothing to remove. */
  lemma NoVictims(w: World, t: Timing)
    requires TimesOk(w, t) && EntriesLive(w) && Prompt(t)
    ensures Victims(w) == {}
  {
    forall k | k in w.sessions ensures !IsIdle(w.objs[w.sessions[k]], w.now) {
      assert Recent(w.objs[w.sessions[k]], w.now, t);
    }
  }

  lemma SweepIdles(w: World, t: Timing)
    requires TimesOk(w, t) && EntriesLive(w) && Prompt(t)
    ensures SweepOut(w) == w
  {
    NoVictims(w, t);
    assert w.sessions - {} == w.sessions;
    assert SweepOut(w).objs == w.objs;
  }

  lemma ListedStep(w: World, e: Event, t: Timing)
    requires EntriesLive(w) && ReadersListed(w) && DispatcherOk(w) && Enabled(w, e, t) && !e.Sweep?
    ensures ReadersListed(Next(w, e, t))
  {
    if !e.Insert? && !e.Delete? {
      ReadersStayListed(w, Next(w, e, t));
    }
  }

  lemma ReadersStayListed(w: World, v: World)
    requires ReadersListed(w) && v.sessions == w.sessions && |w.objs| <= |v.objs|
    requires forall i :: 0 <= i < |w.objs| ==> SameEntry(w.objs[i], v.objs[i])
    requires forall i :: |w.objs| <= i < |v.objs| ==> !InTable(v.objs[i].pc)
    ensures ReadersListed(v)
  {
    forall i | 0 <= i < |v.objs| && InTable(v.objs[i].pc) ensures Listed(v, i) {
      assert SameEntry(w.objs[i], v.objs[i]);
      assert Listed(w, i);
    }
  }

  lemma CountedStep(w: World, e: Event, t: Timing)
    requires CountedOnce(w) && NoneClosed(w) && DispatcherOk(w) && Enabled(w, e, t) && !e.Sweep?
    ensures CountedOnce(Next(w, e, t)) && NoneClosed(Next(w, e, t))
  {
  }

  lemma RemoveOne(m: map<Key, nat>, k: Key)
    requires k in m
    ensures |m - {k}| == |m| - 1
  {
    assert (m - {k}).Keys == m.Keys - {k};
    assert |(m - {k}).Keys| == |m.Keys| - 1;
  }

  lemma AddOne(m: map<Key, nat>, k: Key, i: nat)
    requires k !in m
    ensures |m[k := i]| == |m| + 1
  {
    assert m[k := i].Keys == m.Keys + {k};
    assert |m[k := i].Keys| == |m.Keys| + 1;
  }

  /** Changing a session that neither enters nor leaves changes no count. */
  lemma ShareStands(w: World, v: World, i: nat)
    requires ShareIsTable(w) && i < |w.objs| == |v.objs| && v.objs == w.objs[i := v.objs[i]]
    requires IsRemoved(w.objs[i]) <==> IsRemoved(v.objs[i])
    requires v.sessions == w.sessions && v.share == w.share
    requires Between(v.dispatcher) <==> Between(w.dispatcher)
    ensures ShareIsTable(v)
  {
    CountUpdate(w.objs, i, v.objs[i], IsRemoved);
  }

  lemma ShareOnInsert(w: World, t: Timing)
    requires DispatcherOk(w) && ShareIsTable(w) && Enabled(w, Insert, t)
    ensures ShareIsTable(Next(w, Insert, t))
  {
    var i, v := w.dispatcher.i, Next(w, Insert, t);
    CountUpdate(w.objs, i, v.objs[i], IsRemoved);
    AddOne(w.sessions, w.objs[i].key, i);
  }

  lemma ShareOnDelete(w: World, i: nat, t: Timing)
    requires ReadersListed(w) && ShareIsTable(w) && Enabled(w, Delete(i), t)
    ensures ShareIsTable(Next(w, Delete(i), t))
  {
    assert Listed(w, i);
    CountUpdate(w.objs, i, Next(w, Delete(i), t).objs[i], IsRemoved);
    RemoveOne(w.sessions, w.objs[i].key);
  }

  lemma ShareStep(w: World, e: Event, t: Timing)
    requires ReadersListed(w) && DispatcherOk(w) && ShareIsTable(w) && Enabled(w, e, t) && !e.Sweep?
    ensures ShareIsTable(Next(w, e, t))
  {
    var v := Next(w, e, t);
    match e
    case Build => CountAppend(w.objs, Session(w.dispatcher.key, w.now, Made, 0, false), IsRemoved);
    case Insert => ShareOnInsert(w, t);
    case Delete(i) => ShareOnDelete(w, i, t);
    case CountOut(i) => CountUpdate(w.objs, i, v.objs[i], IsRemoved);
    case Touch => ShareStands(w, v, w.dispatcher.i);
    case Arm(i) => ShareStands(w, v, i);
    case Receive(i) => ShareStands(w, v, i);
    case Update(i) => ShareStands(w, v, i);
    case Expire(i) => ShareStands(w, v, i);
    case Shut(i) => ShareStands(w, v, i);
    case Break(i) => ShareStands(w, v, i);
    case _ =>
  }

  lemma InvStep(w: World, e: Event, t: Timing)
    requires Inv(w, t) && Enabled(w, e, t) && Prompt(t)
    ensures Inv(Next(w, e, t), t)
  {
    if e.Sweep? {
      SweepIdles(w, t);
    } else {
      SoundStep(w, e, t);
      ListedStep(w, e, t);
      CountedStep(w, e, t);
      ShareStep(w, e, t);
    }
  }

  lemma {:induction false} InvAlways(events: seq<Event>, t: Timing)
    requires Prompt(t) && Run(events, t).Some?
    ensures Inv(Run(events, t).value, t)
  {
    if events == [] {
    } else {
      InvAlways(events[..|events| - 1], t);
      InvStep(Run(events[..|events| - 1], t).value, events[|events| - 1], t);
    }
  }
}
