/** What a handler does follows from what happened to it: from its connection's first bytes, from
    the request it read, and from the one event that decided its client's fate. */
module History {
  import opened Text
  import opened Control
  import opened RelayTables
  import Socks5
  import opened Rendezvous
  import opened RendezvousInv
  import opened Crosstalk
  import opened RendezvousTheorems

  /** The last step of a run, from a state in which the invariant holds. */
  lemma LastStep(events: seq<Event>)
    requires events != [] && Run(events).Some?
    ensures var before, e := events[..|events| - 1], events[|events| - 1];
            && Run(before).Some? && Ready(Run(before).value, e) && Run(events).value == Next(Run(before).value, e)
            && StreamsExist(Run(before).value) && HandlersOk(Run(before).value)
  {
    var before, e := events[..|events| - 1], events[|events| - 1];
    InvAlways(before);
    ReadyAt(Run(before).value, e);
  }

  // ---- The first bytes decide what a connection is ----

  /** A handler whose connection began this way: a byte 5 makes a SOCKS5 client, `register` a phone,
      `connect:` with an id a legacy client, `data:` a data connection; anything else, an empty id
      included, is served no further. */
  predicate Became(x: Handler, o: Opening) {
    match o
    case OpenSocks =>
      || x.role.Client?
      || (x.role.Unknown? && (x.pc.Greeting? || x.pc.Requesting? || x.pc.Replying? || x.pc.Closed?))
    case OpenLine(first) => BecameOf(x, first, None)
    case OpenForOrder(first, origin, _) => BecameOf(x, first, Some(origin))
  }

  predicate BecameOf(x: Handler, first: FirstLine, origin: Option<Origin>) {
    match first
    case RegisterLine => x.role.Phone? || (x.role.Unknown? && x.pc.Registering?)
    case ConnectLine(id) => if id == "" then x.role.Unknown? && x.pc.Closed? else x.role == Legacy(id)
    case DataLine(id) => x.role == Data(id, origin)
    case OtherLine => x.role.Unknown? && x.pc.Closed?
  }

  lemma StaysWhatItIs(w: World, e: Event, o: Opening)
    requires Ready(w, e) && !e.Accept? && !e.Begin? && Became(w.hs[e.h], o)
    ensures Became(Move(w, e), o)
  {
    hide Obeys, Possible, AfterRequest, HostOf;
    if e.Request? {
      RequestMakesClient(w, e);
    }
  }

  lemma RequestMakesClient(w: World, e: Event)
    requires Enabled(w, e) && e.Request?
    ensures var y := Move(w, e);
            y.role.Client? || (y.role == w.hs[e.h].role && (y.pc.Replying? || y.pc.Closed?))
  {
    hide Obeys, Possible, HostOf;
  }

  lemma BeginsAs(w: World, e: Event)
    requires Ready(w, e) && e.Begin?
    ensures Became(Move(w, e), e.opening)
  {
    hide Obeys;
  }

  lemma BeginsOnce(w: World, e: Event, o: Opening)
    requires Ready(w, e) && !e.Accept? && Became(w.hs[e.h], o)
    ensures !e.Begin?
  {
    hide Obeys;
  }

  /** On every run, a connection that began in a way is served as that at every later time. */
  lemma {:induction false} OpeningDecides(events: seq<Event>, k: nat, h: Conn, o: Opening)
    requires Run(events).Some? && k < |events| && events[k] == Begin(h, o)
    ensures h in Run(events).value.hs && Became(Run(events).value.hs[h], o)
  {
    var before, e := events[..|events| - 1], events[|events| - 1];
    var w := Run(before).value;
    LastStep(events);
    hide Run, Became, Enabled, HandlerOk, HandlersOk, Move, NextTables, NextChans, NextStreams;
    if k == |before| {
      BeginsAs(w, e);
    } else {
      OpeningDecides(before, k, h, o);
      if e.h == h {
        BeginsOnce(w, e, o);
        StaysWhatItIs(w, e, o);
      }
    }
  }

  // ---- The request decides how a SOCKS5 client is served ----

  /** The host asked for: the bytes of a domain name, or what the library prints for an address. */
  predicate AsAsked(host: string, req: Socks5.Request, ip: string) {
    if req.atyp == 3 then |host| == |req.addr| && forall i :: 0 <= i < |host| ==> host[i] as int == req.addr[i]
    else host == ip
  }

  /** A handler that read a request ending this way: a refused command is answered 7, an address
      that cannot be read 8, an unfinished request not at all; and a CONNECT request makes a client
      for the host and port in it. */
  predicate Served(x: Handler, o: Socks5.Outcome, ip: string) {
    match o
    case BadCommand => Refused(x, 7)
    case BadAddress => Refused(x, 8)
    case Connect(req) => x.role.Client? && x.role.port == req.port && AsAsked(x.role.host, req, ip)
    case _ => x.role.Unknown? && x.pc.Closed? && x.said.offers == [Method]
  }

  predicate Refused(x: Handler, code: Byte) {
    && x.role.Unknown?
    && if x.pc.Closed? then x.said.offers == [Method, Final(code)]
       else x.pc == Replying(code) && x.said.offers == [Method]
  }

  lemma RequestRead(w: World, e: Event)
    requires Ready(w, e) && e.Request?
    ensures Served(Move(w, e), e.outcome, e.ip)
  {
    hide Obeys;
  }

  lemma ServedOn(w: World, e: Event, o: Socks5.Outcome, ip: string)
    requires Ready(w, e) && !e.Accept? && Served(w.hs[e.h], o, ip)
    ensures Served(Move(w, e), o, ip)
  {
    hide Obeys, Possible, AsAsked;
    if o.Connect? {
      MovesSettled(w, e);
    }
  }

  lemma {:induction false} RequestDecides(events: seq<Event>, k: nat, h: Conn, o: Socks5.Outcome, ip: string)
    requires Run(events).Some? && k < |events| && events[k] == Request(h, o, ip)
    ensures h in Run(events).value.hs && Served(Run(events).value.hs[h], o, ip)
  {
    var before, e := events[..|events| - 1], events[|events| - 1];
    var w := Run(before).value;
    LastStep(events);
    hide Run, Served, Enabled, HandlerOk, HandlersOk, Move, NextTables, NextChans, NextStreams;
    if k == |before| {
      RequestRead(w, e);
    } else {
      RequestDecides(before, k, h, o, ip);
      if e.h == h {
        ServedOn(w, e, o, ip);
      }
    }
  }

  /** No crosstalk, from the request to the order: with honest phones and clean hosts, a client that
      sent this request is only ever handed a data connection that a phone opened for an order
      naming the client's number, and a target that reads as the host and the port requested. */
  lemma HandedWhatItAskedFor(events: seq<Event>, k: nat, h: Conn, req: Socks5.Request, ip: string)
    requires Run(events).Some? && k < |events| && events[k] == Request(h, Socks5.Connect(req), ip)
    requires var w := Run(events).value; HostsClean(w) && PhonesHonest(w)
    ensures h in Run(events).value.hs
    ensures Run(events).value.hs[h].got.Some? ==>
              var w := Run(events).value; var d := w.hs[h].got.value;
              && d in w.hs && w.hs[d].role.Data? && w.hs[d].role.origin.Some?
              && var o := w.hs[d].role.origin.value;
                 && o.phone in w.ctl
                 && var order := OrderAt(BytesOf(w.ctl[o.phone]), o.line);
                    && order.Some? && order.value.OpenTarget? && order.value.id == ClientId(w.hs[h].issued)
                    && exists host :: AsAsked(host, req, ip) && ReadsAs(order.value.target, host, req.port)
  {
    RequestDecides(events, k, h, Socks5.Connect(req), ip);
    var w := Run(events).value;
    if w.hs[h].got.Some? {
      hide Run, HostsClean, PhonesHonest;
      NoCrosstalk(events, h);
      assert OrdersFor(OrderAt(BytesOf(w.ctl[w.hs[w.hs[h].got.value].role.origin.value.phone]),
                               w.hs[w.hs[h].got.value].role.origin.value.line), w.hs[h]);
    }
  }

  // ---- One event decides a client's reply ----

  /** The reply code that a step brings upon its client: 1 when there is no last phone, or it has
      left, or the control line does not go out whole; 0 when a data connection comes; 3 when the
      wait times out. */
  function Ruling(w: World, e: Event): Option<Byte>
    requires Enabled(w, e)
  {
    match e
    case ReadLast(h) => if w.tables.lastPhone == "" then Some(1) else None
    case Find(h) => if w.hs[h].pc.phone !in w.tables.ctrl then Some(1) else None
    case Notify(h, k) =>
      var s := w.ctl[w.hs[h].pc.sc];
      if s.broken || k < |Encode(LineFor(w.hs[h]))| then Some(1) else None
    case Receive(_) => Some(0)
    case Timeout(_) => Some(3)
    case _ => None
  }

  /** The code a client was, is being or is about to be answered. */
  function Answer(x: Handler): Option<Byte> {
    match x.pc
    case Unparking(code) => Some(code)
    case Replying(code) => Some(code)
    case _ => if |x.said.offers| == 2 && x.said.offers[1].Final? then Some(x.said.offers[1].code) else None
  }

  /** The ruling that a run brought upon client `h`. */
  function RulingOn(events: seq<Event>, h: Conn): Option<Byte>
    requires Run(events).Some?
  {
    if events == [] then None
    else
      var before, e := events[..|events| - 1], events[|events| - 1];
      if e.h == h && Ruling(Run(before).value, e).Some? then Ruling(Run(before).value, e) else RulingOn(before, h)
  }

  lemma RulingIsAnswer(w: World, e: Event)
    requires Ready(w, e) && !e.Accept? && Move(w, e).role.Client?
    ensures Ruling(w, e).Some? ==> Answer(Move(w, e)) == Ruling(w, e) && Answer(w.hs[e.h]).None?
    ensures Ruling(w, e).None? ==> Answer(Move(w, e)) == if w.hs[e.h].role.Client? then Answer(w.hs[e.h]) else None
  {
    hide Obeys, Possible, HostOf, ReplyBytes;
  }

  lemma OnlyClientsAreRuled(w: World, e: Event)
    requires Ready(w, e) && Ruling(w, e).Some?
    ensures !e.Accept? && w.hs[e.h].role.Client? && Move(w, e).role == w.hs[e.h].role
  {
    hide Obeys;
  }

  lemma ClientsStay(w: World, e: Event, h: Conn)
    requires Ready(w, e) && StreamsExist(w)
    ensures h in w.hs && w.hs[h].role.Client? ==> h in Next(w, e).hs && Next(w, e).hs[h].role.Client?
  {
    WorldEvolves(w, e);
  }

  lemma {:induction false} NoRulingYet(events: seq<Event>, h: Conn)
    requires Run(events).Some?
    requires h in Run(events).value.hs ==> !Run(events).value.hs[h].role.Client?
    ensures RulingOn(events, h) == None
  {
    if events == [] {
    } else {
      var before, e := events[..|events| - 1], events[|events| - 1];
      var w := Run(before).value;
      LastStep(events);
      if e.h == h && Ruling(w, e).Some? {
        OnlyClientsAreRuled(w, e);
      }
      ClientsStay(w, e, h);
      NoRulingYet(before, h);
    }
  }

  /** A client's reply code is exactly the ruling of the run, whatever writes failed: 1 for want of
      a phone or of its line, 0 for a data connection, 3 for the timeout, and none without one. */
  lemma {:induction false} RulingExactly(events: seq<Event>, h: Conn)
    requires Run(events).Some? && h in Run(events).value.hs && Run(events).value.hs[h].role.Client?
    ensures Answer(Run(events).value.hs[h]) == RulingOn(events, h)
  {
    var before, e := events[..|events| - 1], events[|events| - 1];
    var w := Run(before).value;
    LastStep(events);
    hide Answer, Ruling, HandlerOk, HandlersOk, Obeys, Move, NextTables, NextChans, NextStreams;
    if e.h == h && !e.Accept? {
      RulingIsAnswer(w, e);
      if w.hs[h].role.Client? {
        RulingExactly(before, h);
      } else {
        NoRulingYet(before, h);
      }
    } else {
      RulingExactly(before, h);
    }
  }

  // ---- What was found is told ----

  /** Some phone was written the control line of client `h`. */
  ghost predicate LineStands(w: World, h: Conn)
    requires h in w.hs && w.hs[h].role.Client?
  {
    exists p, i: nat :: p in w.ctl && HasEntry(w.ctl[p], i, Entry(h, LineFor(w.hs[h])))
  }

  predicate HasEntry(s: Stream, i: nat, n: Entry) {
    i < |s.log| && s.log[i] == n
  }

  lemma StreamsOnlyGrow(w: World, e: Event, p: Conn)
    requires Ready(w, e) && StreamsExist(w) && p in w.ctl
    ensures p in NextStreams(w, e) && w.ctl[p].log <= NextStreams(w, e)[p].log
    ensures w.ctl[p].broken ==> NextStreams(w, e)[p].broken
  {
    hide Obeys;
  }

  lemma NotifyWrites(w: World, e: Event)
    requires e.Notify? && Ready(w, e) && Move(w, e).wrote
    ensures Move(w, e).role == w.hs[e.h].role && LineStands(Next(w, e), e.h)
  {
    hide Encode;
    var sc, v := w.hs[e.h].pc.sc, Next(w, e);
    assert LineFor(v.hs[e.h]) == LineFor(w.hs[e.h]);
    assert HasEntry(v.ctl[sc], |w.ctl[sc].log|, Entry(e.h, LineFor(v.hs[e.h])));
  }

  lemma LineStandsLater(w: World, v: World, h: Conn)
    requires Evolves(w, v) && h in w.hs && w.hs[h].role.Client? && 0 < w.hs[h].issued && LineStands(w, h)
    ensures h in v.hs && v.hs[h].role.Client? && LineStands(v, h)
  {
    assert Settled(w.hs[h], v.hs[h]);
    var p, i: nat :| p in w.ctl && HasEntry(w.ctl[p], i, Entry(h, LineFor(w.hs[h])));
    assert HasEntry(v.ctl[p], i, Entry(h, LineFor(v.hs[h])));
  }

  lemma LineStandsOn(w: World, e: Event, h: Conn)
    requires Ready(w, e) && StreamsExist(w) && h in w.hs && w.hs[h].role.Client? && 0 < w.hs[h].issued
    requires LineStands(w, h)
    ensures h in Next(w, e).hs && Next(w, e).hs[h].role.Client? && LineStands(Next(w, e), h)
  {
    WorldEvolves(w, e);
    hide Enabled, Next, LineStands, Evolves;
    LineStandsLater(w, Next(w, e), h);
  }

  lemma OnlyNotifyWrites(w: World, e: Event)
    requires Ready(w, e) && !e.Notify? && Move(w, e).wrote
    ensures !e.Accept? && w.hs[e.h].wrote
  {
    hide Obeys;
  }

  lemma WritersParked(x: Handler)
    requires HandlerOk(x) && x.role.Client? && x.wrote
    ensures 0 < x.issued
  {
  }

  lemma WrittenBefore(w: World, e: Event, h: Conn)
    requires Ready(w, e) && HandlersOk(w) && h in w.hs && w.hs[h].wrote
    ensures w.hs[h].role.Client? && HandlerOk(w.hs[h])
  {
  }

  predicate Wrote(w: World, h: Conn) {
    h in w.hs && w.hs[h].role.Client? && w.hs[h].wrote
  }

  lemma LineStep(w: World, e: Event, h: Conn)
    requires Ready(w, e) && StreamsExist(w) && HandlersOk(w) && Wrote(Next(w, e), h)
    requires Wrote(w, h) ==> LineStands(w, h)
    ensures LineStands(Next(w, e), h)
  {
    hide Obeys, HandlersOk, LineStands;
    if e.h == h && e.Notify? {
      NotifyWrites(w, e);
    } else {
      if e.h == h {
        OnlyNotifyWrites(w, e);
      }
      WrittenBefore(w, e, h);
      WritersParked(w.hs[h]);
      LineStandsOn(w, e, h);
    }
  }

  /** On every run, a client that waits for a connection, or got one, or waited in vain, had its
      control line written to a phone, with its number and target. */
  lemma {:induction false} LineIsWritten(events: seq<Event>, h: Conn)
    requires Run(events).Some? && Wrote(Run(events).value, h)
    ensures LineStands(Run(events).value, h)
  {
    var before, e := events[..|events| - 1], events[|events| - 1];
    var w := Run(before).value;
    LastStep(events);
    hide Run, HandlersOk, HandlerOk, Enabled, LineStands, Next;
    if Wrote(w, h) {
      LineIsWritten(before, h);
    }
    LineStep(w, e, h);
  }

  /** Phone `sc` was written a `conn` line for legacy client `h`, or nothing more passes to it, or the
      line is the next thing the handler does. */
  ghost predicate ToldOf(w: World, h: Conn, sc: Conn)
    requires h in w.hs
  {
    || w.hs[h].pc == LegacyNotifying(sc)
    || (sc in w.ctl && (w.ctl[sc].broken || exists i: nat :: HasEntry(w.ctl[sc], i, Entry(h, AnyClient))))
  }

  lemma LegacyWrites(w: World, e: Event)
    requires Enabled(w, e) && !e.Accept? && w.hs[e.h].pc.LegacyNotifying?
    ensures var sc := w.hs[e.h].pc.sc;
            && e.LegacyNotify? && sc in w.ctl && sc in NextStreams(w, e)
            && (NextStreams(w, e)[sc].broken || HasEntry(NextStreams(w, e)[sc], |w.ctl[sc].log|, Entry(e.h, AnyClient)))
  {
    hide Obeys, Encode;
  }

  lemma ToldOfOn(w: World, e: Event, h: Conn, sc: Conn)
    requires Ready(w, e) && StreamsExist(w) && h in w.hs && ToldOf(w, h, sc)
    ensures h in Next(w, e).hs && ToldOf(Next(w, e), h, sc)
  {
    hide Obeys, HandlerOk, NextTables, NextChans, NextStreams;
    if w.hs[h].pc == LegacyNotifying(sc) {
      if e.h == h {
        LegacyWrites(w, e);
      }
    } else {
      ToldStands(w, e, h, sc);
    }
  }

  lemma ToldStands(w: World, e: Event, h: Conn, sc: Conn)
    requires Ready(w, e) && StreamsExist(w) && sc in w.ctl
    requires w.ctl[sc].broken || exists i: nat :: HasEntry(w.ctl[sc], i, Entry(h, AnyClient))
    ensures sc in NextStreams(w, e)
    ensures NextStreams(w, e)[sc].broken || exists i: nat :: HasEntry(NextStreams(w, e)[sc], i, Entry(h, AnyClient))
  {
    StreamsOnlyGrow(w, e, sc);
    hide Ready, Enabled, NextStreams;
    if i: nat :| HasEntry(w.ctl[sc], i, Entry(h, AnyClient)) {
      assert HasEntry(NextStreams(w, e)[sc], i, Entry(h, AnyClient));
    }
  }

  lemma FindTells(w: World, e: Event, sc: Conn)
    requires e.LegacyFind? && Enabled(w, e) && Lookup(w.tables, w.hs[e.h].role.id) == Some(sc)
    ensures e.h in Next(w, e).hs && ToldOf(Next(w, e), e.h, sc)
  {
  }

  /** On every run, a legacy client that names a registered phone has that phone told, unless the
      phone's connection takes no more: the line is written before the client waits. */
  lemma {:induction false} LegacyIsTold(events: seq<Event>, k: nat, h: Conn, sc: Conn)
    requires Run(events).Some? && k < |events| && events[k] == LegacyFind(h) && Run(events[..k]).Some?
    requires h in Run(events[..k]).value.hs && Run(events[..k]).value.hs[h].role.Legacy?
    requires var w := Run(events[..k]).value;
             w.hs[h].role.id in w.tables.ctrl && w.tables.ctrl[w.hs[h].role.id] == sc
    ensures h in Run(events).value.hs && ToldOf(Run(events).value, h, sc)
  {
    var before, e := events[..|events| - 1], events[|events| - 1];
    var w := Run(before).value;
    LastStep(events);
    hide Run, HandlersOk, HandlerOk, Obeys, ToldOf, Next;
    if k == |before| {
      assert events[..k] == before;
      FindTells(w, e, sc);
    } else {
      assert before[..k] == events[..k];
      LegacyIsTold(before, k, h, sc);
      ToldOfOn(w, e, h, sc);
    }
  }
}
