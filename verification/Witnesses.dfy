/** Runs that exist: any target can be served under all of the theorems' assumptions, anyone can
    name a client's number, and a legacy client can take a waiting client's entry. */
module Witnesses {
  import opened Text
  import opened Control
  import opened RelayTables
  import Socks5
  import opened Rendezvous
  import opened Crosstalk
  import opened HandOff

  ghost predicate Reachable(w: World) {
    exists events :: Run(events) == Some(w)
  }

  lemma ReachNext(w: World, e: Event)
    requires Reachable(w) && Enabled(w, e)
    ensures Reachable(Next(w, e))
  {
    var events :| Run(events) == Some(w);
    assert (events + [e])[..|events|] == events;
    assert Run(events + [e]) == Some(Next(w, e));
  }

  lemma PhoneRegisters() returns (w: World)
    ensures Reachable(w) && w.hs == map[0 := NEW.(role := Phone(1), pc := Announcing)]
    ensures w.tables == Register(EMPTY, 0) && w.chans == map[] && w.ctl == map[0 := Stream([], "", false)]
  {
    hide Obeys;
    assert Run([]) == Some(INITIAL);
    ReachNext(INITIAL, Accept(0));
    w := Next(INITIAL, Accept(0));
    ReachNext(w, Begin(0, OpenLine(RegisterLine)));
    w := Next(w, Begin(0, OpenLine(RegisterLine)));
    ReachNext(w, RegisterIt(0));
    w := Next(w, RegisterIt(0));
  }

  /** A first phone registers and is told its id. */
  lemma PhoneArrives() returns (w: World)
    ensures Reachable(w) && w.hs.Keys == {0} && w.hs[0].pc.Listening? && w.hs[0].role == Phone(1)
    ensures w.tables == Register(EMPTY, 0) && w.chans == map[]
    ensures w.ctl == map[0 := Stream([Entry(0, Identify(1))], "", false)]
  {
    hide Obeys, Reachable;
    var w1 := PhoneRegisters();
    var k := |Encode(Identify(1))|;
    ReachNext(w1, Announce(0, k));
    w := Next(w1, Announce(0, k));
    assert w.ctl[0] == Stream([Entry(0, Identify(1))], "", false);
  }

  /** The method reply went out. */
  const GREETED := Said([Method], Socks5.METHOD_REPLY, false)

  /** A client that asked for this and got as far as its entry in `wait`. */
  function ParkedClient(req: Socks5.Request, ip: string, phone: string, seen: Option<Conn>, n: nat): Handler {
    Handler(Client(HostOf(req, ip), req.port), Finding(phone, seen), n, None, None, false, GREETED)
  }

  lemma ClientGreets(w: World, h: Conn) returns (v: World)
    requires Reachable(w) && h !in w.hs
    ensures Reachable(v) && v.tables == w.tables && v.chans == w.chans && v.ctl == w.ctl
    ensures v.hs == w.hs[h := NEW.(pc := Requesting, said := GREETED)]
  {
    hide Obeys;
    ReachNext(w, Accept(h));
    var w1 := Next(w, Accept(h));
    ReachNext(w1, Begin(h, OpenSocks));
    var w2 := Next(w1, Begin(h, OpenSocks));
    ReachNext(w2, Greet(h, true, 2));
    v := Next(w2, Greet(h, true, 2));
    assert v.hs[h].said == GREETED;
  }

  lemma PickAndPark(w: World, h: Conn, req: Socks5.Request, ip: string) returns (v: World)
    requires Reachable(w) && h in w.hs && w.hs[h].pc.Requesting? && w.tables.lastPhone != ""
    requires Possible(Socks5.Connect(req), ip)
    requires w.hs[h] == Handler(Unknown, Requesting, 0, None, None, false, w.hs[h].said)
    ensures Reachable(v) && v.tables == Park(w.tables, h, h) && v.chans == w.chans[h := Chan([], [])] && v.ctl == w.ctl
    ensures var id, n := w.tables.lastPhone, w.tables.connCID + 1;
            v.hs == w.hs[h := ParkedClient(req, ip, id, Lookup(w.tables, id), n).(said := w.hs[h].said)]
  {
    hide Obeys;
    var e := Request(h, Socks5.Connect(req), ip);
    ReachNext(w, e);
    var w1 := Next(w, e);
    ReachNext(w1, ReadLast(h));
    var w2 := Next(w1, ReadLast(h));
    ReachNext(w2, ParkIt(h));
    v := Next(w2, ParkIt(h));
  }

  lemma ClientParks(w: World, h: Conn, req: Socks5.Request, ip: string) returns (v: World)
    requires Possible(Socks5.Connect(req), ip) && Reachable(w) && h !in w.hs && w.tables.lastPhone != ""
    ensures Reachable(v) && v.tables == Park(w.tables, h, h) && v.chans == w.chans[h := Chan([], [])] && v.ctl == w.ctl
    ensures var id := w.tables.lastPhone;
            v.hs == w.hs[h := ParkedClient(req, ip, id, Lookup(w.tables, id), w.tables.connCID + 1)]
  {
    hide Reachable;
    var w1 := ClientGreets(w, h);
    v := PickAndPark(w1, h, req, ip);
  }

  // ---- From the entry in `wait` to piping ----

  /** The phone is found and the control line written. */
  lemma ClientNotifies(w: World, h: Conn) returns (v: World)
    requires Reachable(w) && h in w.hs && w.hs[h].role.Client? && w.hs[h].pc == Finding(PhoneId(1), Some(0))
    requires Lookup(w.tables, PhoneId(1)) == Some(0) && 0 in w.ctl && !w.ctl[0].broken
    ensures Reachable(v) && v.tables == w.tables && v.chans == w.chans
    ensures v.ctl == w.ctl[0 := w.ctl[0].(log := w.ctl[0].log + [Entry(h, LineFor(w.hs[h]))])]
    ensures v.hs == w.hs[h := w.hs[h].(wrote := true, pc := Waiting)]
  {
    hide Obeys, Reachable;
    ReachNext(w, Find(h));
    var w1 := Next(w, Find(h));
    var k := |Encode(LineFor(w.hs[h]))|;
    ReachNext(w1, Notify(h, k));
    v := Next(w1, Notify(h, k));
  }

  /** A data connection that has sent its first line. */
  function Arriving(id: string, origin: Option<Origin>): Handler {
    Handler(Data(id, origin), Claiming, 0, None, None, false, SILENT)
  }

  /** A phone opens one for an order it has read, or somebody without one. */
  lemma DataOpens(w: World, d: Conn, id: string, origin: Option<Origin>, read: nat) returns (v: World)
    requires Reachable(w) && d !in w.hs && (origin.Some? ==> Obeys(w, DataLine(id), origin.value, read))
    ensures Reachable(v) && v.chans == w.chans && v.ctl == w.ctl && v.tables == w.tables
    ensures v.hs == w.hs[d := Arriving(id, origin)]
  {
    hide Obeys, Reachable;
    ReachNext(w, Accept(d));
    var w1 := Next(w, Accept(d));
    if origin.Some? {
      ObeysLater(w, w1, DataLine(id), origin.value, read);
    }
    var opening := if origin.Some? then OpenForOrder(DataLine(id), origin.value, read) else OpenLine(DataLine(id));
    ReachNext(w1, Begin(d, opening));
    v := Next(w1, Begin(d, opening));
  }

  lemma ObeysLater(w: World, v: World, first: FirstLine, o: Origin, read: nat)
    requires v.ctl == w.ctl
    ensures Obeys(v, first, o, read) <==> Obeys(w, first, o, read)
  {
  }

  /** It claims the waiting client. */
  lemma DataClaims(w: World, d: Conn, id: string, origin: Option<Origin>, h: Conn) returns (v: World)
    requires Reachable(w) && d in w.hs && w.hs[d] == Arriving(id, origin)
    requires Waiter(w.tables, id) == Some(WaitEntry(h, h))
    ensures Reachable(v) && v.chans == w.chans && v.ctl == w.ctl && v.tables == Unpark(w.tables, id)
    ensures v.hs == w.hs[d := Arriving(id, origin).(pc := Sending(h))]
  {
    hide Obeys, Reachable;
    ReachNext(w, ClaimIt(d));
    v := Next(w, ClaimIt(d));
  }

  /** Client `h` is piping with data connection `d` and was sent the success replies. */
  predicate Served(w: World, h: Conn, d: Conn, host: string, port: nat) {
    && h in w.hs && w.hs[h].role == Client(host, port) && w.hs[h].pc.Piping? && w.hs[h].got == Some(d)
    && w.hs[h].said.out == [5, 0] + [5, 0, 0, 1, 0, 0, 0, 0, 0, 0]
  }

  lemma ServedGot(w: World, h: Conn, d: Conn, host: string, port: nat)
    requires Served(w, h, d, host, port)
    ensures h in w.hs && w.hs[h].role == Client(host, port) && w.hs[h].got == Some(d)
  {
  }

  /** Data connection `d` is sent to client `h`, which starts piping. */
  lemma HandOver(w: World, d: Conn, h: Conn) returns (v: World)
    requires Reachable(w) && d in w.hs && h in w.hs && d != h && w.hs[d].pc == Sending(h)
    requires w.hs[h].role.Client? && w.hs[h].pc.Waiting? && w.hs[h].said == GREETED
    requires h in w.chans && w.chans[h] == Chan([], [])
    ensures Reachable(v) && v.tables == w.tables && v.ctl == w.ctl && v.hs.Keys == w.hs.Keys
    ensures Served(v, h, d, w.hs[h].role.host, w.hs[h].role.port) && v.hs[h].issued == w.hs[h].issued
    ensures forall g :: g in w.hs ==> v.hs[g].role == w.hs[g].role
  {
    hide Obeys, Reachable;
    ReachNext(w, Send(d));
    var w1 := Next(w, Send(d));
    assert Arrived(w1, h);
    ReachNext(w1, Receive(h));
    var w2 := Next(w1, Receive(h));
    v := Grant(w2, h);
  }

  lemma Grant(w: World, h: Conn) returns (v: World)
    requires Reachable(w) && h in w.hs && w.hs[h].pc == Replying(GRANTED) && w.hs[h].said == GREETED
    ensures Reachable(v) && v.tables == w.tables && v.ctl == w.ctl
    ensures h in v.hs && v.hs == w.hs[h := w.hs[h].(pc := Piping, said := v.hs[h].said)]
    ensures v.hs[h].said.out == [5, 0] + [5, 0, 0, 1, 0, 0, 0, 0, 0, 0]
  {
    hide Obeys, Reachable;
    ReachNext(w, ReplyIt(h, 10));
    v := Next(w, ReplyIt(h, 10));
  }

  /** The phone has read its whole stream so far and obeys the order in this line. */
  lemma PhoneObeys(w: World, line: nat, k: nat)
    requires 0 in w.ctl && OrderAt(BytesOf(w.ctl[0]), line).Some?
    requires OrderAt(BytesOf(w.ctl[0]), line).value.id == ClientId(k)
    ensures Obeys(w, DataLine(ClientId(k)), Origin(0, line), |BytesOf(w.ctl[0])|)
  {
    hide BytesOf, OrderAt, Dispatch;
    var text := BytesOf(w.ctl[0]);
    assert text[..|text|] == text;
    IssuedIdRoundTrip(k);
  }

  /** Client `h` waits under number `k`, and a data connection under that number comes: opened for
      the order in a line, or for none. */
  lemma DataServes(w: World, d: Conn, h: Conn, k: nat, origin: Option<Origin>) returns (v: World)
    requires Reachable(w) && d !in w.hs && h in w.hs && w.hs[h].role.Client? && w.hs[h].pc.Waiting?
    requires w.hs[h].said == GREETED && h in w.chans && w.chans[h] == Chan([], []) && 0 in w.ctl
    requires Waiter(w.tables, ClientId(k)) == Some(WaitEntry(h, h))
    requires origin.Some? ==>
               && origin.value.phone == 0
               && var order := OrderAt(BytesOf(w.ctl[0]), origin.value.line);
                  order.Some? && order.value.id == ClientId(k)
    ensures Reachable(v) && v.ctl == w.ctl && v.tables.connCID == w.tables.connCID && v.hs.Keys == w.hs.Keys + {d}
    ensures Served(v, h, d, w.hs[h].role.host, w.hs[h].role.port) && v.hs[h].issued == w.hs[h].issued
    ensures v.hs[d].role == Data(ClientId(k), origin)
    ensures forall g :: g in w.hs ==> v.hs[g].role == w.hs[g].role
  {
    hide Reachable, Served, Obeys, BytesOf, OrderAt;
    if origin.Some? {
      PhoneObeys(w, origin.value.line, k);
    }
    var w1 := DataOpens(w, d, ClientId(k), origin, |BytesOf(w.ctl[0])|);
    var w2 := DataClaims(w1, d, ClientId(k), origin, h);
    v := HandOver(w2, d, h);
  }

  // ---- A client is served ----

  /** The phone's stream: its id and the line of the one client. */
  function Ordered(target: string): Stream {
    Stream([Entry(0, Identify(1)), Entry(1, ClientFor(ClientId(1), target))], "", false)
  }

  /** The phone reads its whole stream and finds the order for the client. */
  lemma PhoneReadsOrder(target: string)
    requires Framable(ClientFor(ClientId(1), target))
    ensures OrderAt(BytesOf(Ordered(target)), 1) == Some(OpenTarget(ClientId(1), target))
  {
    var ms := [Identify(1), ClientFor(ClientId(1), target)];
    assert Messages(Ordered(target).log) == ms;
    WireLines(ms, "");
    assert OrderAt(BytesOf(Ordered(target)), 1) == OrderInLine(Encodings(ms), 1);
    MessageRoundTrip(ms[0], "");
    MessageRoundTrip(ms[1], PhoneId(1));
  }

  lemma TargetFramable(host: string, port: nat)
    requires '\n' !in host
    ensures Framable(ClientFor(ClientId(1), JoinHostPort(host, port)))
  {
    JoinHostPortShape(host, port);
    assert ClientId(1) == "c1";
  }

  /** A phone, and the client that asked for this waiting for it. */
  lemma PhoneAndClient(req: Socks5.Request, ip: string) returns (w: World)
    requires Possible(Socks5.Connect(req), ip)
    ensures Reachable(w) && w.hs.Keys == {0, 1} && w.hs[0].role == Phone(1) && w.hs[0].pc.Listening?
    ensures w.tables == Park(Register(EMPTY, 0), 1, 1) && w.chans == map[1 := Chan([], [])]
    ensures w.hs[1] == ParkedClient(req, ip, PhoneId(1), Some(0), 1).(wrote := true, pc := Waiting)
    ensures w.ctl == map[0 := Ordered(JoinHostPort(HostOf(req, ip), req.port))]
  {
    hide Reachable, JoinHostPort;
    var w0 := PhoneArrives();
    var w1 := ClientParks(w0, 1, req, ip);
    w := ClientNotifies(w1, 1);
    assert w.ctl[0] == Ordered(JoinHostPort(HostOf(req, ip), req.port));
  }

  /** Nobody but a phone, a client and a data connection under its number. */
  lemma NobodyElse(w: World, host: string, port: nat, origin: Option<Origin>)
    requires w.hs.Keys == {0, 1, 2} && w.tables.connCID == 1
    requires w.hs[0].role == Phone(1) && w.hs[1].role == Client(host, port)
    requires w.hs[2].role == Data(ClientId(1), origin)
    ensures KeysApart(w) && (HostsClean(w) <==> '\n' !in host) && (PhonesHonest(w) <==> origin.Some?)
  {
    assert IssuedId(w, ClientId(1));
  }

  /** The theorems are not about an empty set of runs: whatever target a client asks for, there
      is a run that keeps every assumption and serves it. */
  lemma AnyTargetIsServed(req: Socks5.Request, ip: string)
    requires Possible(Socks5.Connect(req), ip) && '\n' !in HostOf(req, ip)
    ensures exists w ::
              Reachable(w) && HostsClean(w) && KeysApart(w) && PhonesHonest(w)
              && Served(w, 1, 2, HostOf(req, ip), req.port)
  {
    hide Reachable, Served, HostsClean, KeysApart, PhonesHonest, JoinHostPort, OrderAt, BytesOf, Possible;
    var w0 := PhoneAndClient(req, ip);
    var target := JoinHostPort(HostOf(req, ip), req.port);
    TargetFramable(HostOf(req, ip), req.port);
    PhoneReadsOrder(target);
    var origin := Some(Origin(0, 1));
    var w := DataServes(w0, 2, 1, 1, origin);
    NobodyElse(w, HostOf(req, ip), req.port, origin);
  }

  // ---- A client gets a connection that no phone opened for it ----

  /** Without honest phones: anyone can name a client's number. */
  lemma DishonestPhoneCrosses(req: Socks5.Request, ip: string)
    requires Possible(Socks5.Connect(req), ip) && '\n' !in HostOf(req, ip)
    ensures exists w ::
              Reachable(w) && HostsClean(w) && KeysApart(w)
              && Served(w, 1, 2, HostOf(req, ip), req.port) && !FromOwnOrder(w, 1)
  {
    hide Reachable, Served, HostsClean, KeysApart, PhonesHonest, JoinHostPort, OrderAt, BytesOf, Possible;
    var w0 := PhoneAndClient(req, ip);
    var w := DataServes(w0, 2, 1, 1, None);
    NobodyElse(w, HostOf(req, ip), req.port, None);
    ServedGot(w, 1, 2, HostOf(req, ip), req.port);
    assert !FromOwnOrder(w, 1);
  }

  // ---- A hand-off is lost ----

  /** A legacy client names the number that client `h` drew. */
  lemma LegacyTakesEntry(v: World, h: Conn, g: Conn) returns (u: World)
    requires Reachable(v) && h in v.hs && h in v.chans && g !in v.hs
    requires v.hs[h].role.Client? && v.hs[h].pc.Finding? && 0 < v.hs[h].issued && v.chans[h].held == []
    requires forall d :: d in v.hs ==> !v.hs[d].pc.Sending?
    ensures Reachable(u) && h in u.hs && IsWaiting(u.hs[h]) && !InHand(u, h)
  {
    hide Obeys;
    var id := ClientId(v.hs[h].issued);
    ReachNext(v, Accept(g));
    var v1 := Next(v, Accept(g));
    var e := Begin(g, OpenLine(ConnectLine(id)));
    ReachNext(v1, e);
    var v2 := Next(v1, e);
    ReachNext(v2, LegacyPark(g));
    u := Next(v2, LegacyPark(g));
    assert u.tables.wait[id] == WaitEntry(g, g) && !InWait(u, h);
    assert u.chans[h] == v.chans[h] && !Arrived(u, h);
  }

  /** Without `KeysApart` a hand-off can be lost: a legacy client that names an issued id takes
      the entry of the client it was issued to. */
  lemma LegacyCanOverwrite()
    ensures exists w, h :: Reachable(w) && h in w.hs && IsWaiting(w.hs[h]) && !InHand(w, h)
  {
    hide InHand, IsWaiting, Reachable;
    var w := PhoneArrives();
    var v := ClientParks(w, 1, Socks5.Request(Socks5.DOMAIN, [], 80), "");
    var u := LegacyTakesEntry(v, 1, 2);
  }

  // ---- Legacy clients ----

  /** A phone tells of the one legacy client that named it. */
  const CALLED := Stream([Entry(0, Identify(1)), Entry(1, AnyClient)], "", false)

  lemma CalledReads()
    ensures OrderAt(BytesOf(CALLED), 1) == Some(OpenLocal(PhoneId(1)))
  {
    var ms := [Identify(1), AnyClient];
    assert Messages(CALLED.log) == ms;
    WireLines(ms, "");
    assert OrderAt(BytesOf(CALLED), 1) == OrderInLine(Encodings(ms), 1);
    MessageRoundTrip(ms[0], "");
    MessageRoundTrip(ms[1], PhoneId(1));
  }

  function LegacyAt(id: string, pc: Pc): Handler {
    Handler(Legacy(id), pc, 0, None, None, false, SILENT)
  }

  lemma LegacyParks(w: World, h: Conn, id: string) returns (v: World)
    requires Reachable(w) && h !in w.hs && id != ""
    ensures Reachable(v) && v.tables == ParkAs(w.tables, id, h, h) && v.chans == w.chans[h := Chan([], [])]
    ensures v.ctl == w.ctl && v.hs == w.hs[h := LegacyAt(id, LegacyFinding)]
  {
    hide Obeys, Reachable;
    ReachNext(w, Accept(h));
    var w1 := Next(w, Accept(h));
    ReachNext(w1, Begin(h, OpenLine(ConnectLine(id))));
    var w2 := Next(w1, Begin(h, OpenLine(ConnectLine(id))));
    ReachNext(w2, LegacyPark(h));
    v := Next(w2, LegacyPark(h));
  }

  lemma LegacyCalls(w: World, h: Conn, id: string, sc: Conn) returns (v: World)
    requires Reachable(w) && h in w.hs && w.hs[h] == LegacyAt(id, LegacyFinding)
    requires Lookup(w.tables, id) == Some(sc) && sc in w.ctl && !w.ctl[sc].broken
    ensures Reachable(v) && v.tables == w.tables && v.chans == w.chans && v.hs == w.hs[h := LegacyAt(id, LegacyWaiting)]
    ensures v.ctl == w.ctl[sc := w.ctl[sc].(log := w.ctl[sc].log + [Entry(h, AnyClient)])]
  {
    hide Obeys, Reachable;
    ReachNext(w, LegacyFind(h));
    var w1 := Next(w, LegacyFind(h));
    ReachNext(w1, LegacyNotify(h, 5));
    v := Next(w1, LegacyNotify(h, 5));
    assert |Encode(AnyClient)| == 5;
  }

  lemma LegacyReceives(w: World, d: Conn, h: Conn, id: string) returns (v: World)
    requires Reachable(w) && d in w.hs && h in w.hs && d != h && w.hs[d].pc == Sending(h)
    requires w.hs[h] == LegacyAt(id, LegacyWaiting) && h in w.chans && w.chans[h] == Chan([], [])
    ensures Reachable(v) && v.ctl == w.ctl && v.hs.Keys == w.hs.Keys && v.hs[d].role == w.hs[d].role
    ensures v.hs[h] == LegacyAt(id, Piping).(got := Some(d))
  {
    hide Obeys, Reachable;
    ReachNext(w, Send(d));
    var w1 := Next(w, Send(d));
    assert Arrived(w1, h);
    ReachNext(w1, LegacyReceive(h));
    v := Next(w1, LegacyReceive(h));
  }

  /** A legacy client that names a registered phone can be served by it: the phone is told `conn`, and
      opens a data connection under its own id. */
  lemma LegacyIsServed()
    ensures exists w ::
              && Reachable(w) && 1 in w.hs && w.hs[1] == LegacyAt(PhoneId(1), Piping).(got := Some(2))
              && 2 in w.hs && w.hs[2].role == Data(PhoneId(1), Some(Origin(0, 1)))
              && 0 in w.ctl && OrderAt(BytesOf(w.ctl[0]), 1) == Some(OpenLocal(PhoneId(1)))
  {
    hide Reachable, BytesOf, OrderAt, Dispatch;
    var w0 := PhoneArrives();
    var w1 := LegacyParks(w0, 1, PhoneId(1));
    var w2 := LegacyCalls(w1, 1, PhoneId(1), 0);
    assert w2.ctl[0] == CALLED;
    CalledReads();
    IssuedIdRoundTrip(1);
    var text := BytesOf(CALLED);
    assert text[..|text|] == text;
    var origin := Some(Origin(0, 1));
    var w3 := DataOpens(w2, 2, PhoneId(1), origin, |text|);
    var w4 := DataClaims(w3, 2, PhoneId(1), origin, 1);
    var w := LegacyReceives(w4, 2, 1, PhoneId(1));
  }

  /** A legacy client that times out leaves its entry in `wait`. */
  lemma LegacyLeavesEntry(id: string)
    requires id != ""
    ensures exists w ::
              && Reachable(w) && 1 in w.hs && w.hs[1] == LegacyAt(id, Closed)
              && id in w.tables.wait && w.tables.wait[id] == WaitEntry(1, 1)
  {
    hide Obeys, Reachable;
    InitialReachable();
    var w := LegacyParks(INITIAL, 1, id);
    ReachNext(w, LegacyFind(1));
    var w1 := Next(w, LegacyFind(1));
    ReachNext(w1, LegacyTimeout(1));
    var w2 := Next(w1, LegacyTimeout(1));
    assert w2.hs[1] == LegacyAt(id, Closed) && w2.tables.wait[id] == WaitEntry(1, 1);
  }

  lemma InitialReachable()
    ensures Reachable(INITIAL)
  {
    assert Run([]) == Some(INITIAL);
  }
}
