/** Who gets which data connection: the control streams say what their authors asked for, and
    phones that follow them open connections for exactly those requests. */
module Crosstalk {
  import opened Text
  import opened Control
  import opened RelayTables
  import opened Rendezvous
  import opened RendezvousInv

  // ---- What a run may be assumed to satisfy; each can be read off its last state ----

  /** No client asked for a host with a newline in it. */
  ghost predicate HostsClean(w: World) {
    forall h :: h in w.hs && w.hs[h].role.Client? ==> '\n' !in w.hs[h].role.host
  }

  predicate IssuedId(w: World, id: string) {
    exists k :: 0 < k <= w.tables.connCID && id == ClientId(k)
  }

  /** No legacy client used an id that was issued to a SOCKS5 client. */
  ghost predicate KeysApart(w: World) {
    forall h :: h in w.hs && w.hs[h].role.Legacy? ==> !IssuedId(w, w.hs[h].role.id)
  }

  /** Data connections under issued ids were opened by phones carrying out an order. */
  ghost predicate PhonesHonest(w: World) {
    forall h :: h in w.hs && w.hs[h].role.Data? && w.hs[h].role.origin.None? ==> !IssuedId(w, w.hs[h].role.id)
  }

  // ---- What never changes again ----

  predicate Settled(x: Handler, y: Handler) {
    (!x.role.Unknown? ==> y.role == x.role) && (0 < x.issued ==> y.issued == x.issued)
  }

  ghost predicate Evolves(w: World, v: World) {
    && (forall h :: h in w.hs ==> h in v.hs && Settled(w.hs[h], v.hs[h]))
    && (forall p :: p in w.ctl ==> p in v.ctl && w.ctl[p].log <= v.ctl[p].log)
    && w.tables.connCID <= v.tables.connCID
  }

  lemma EvolvesTransitive(u: World, w: World, v: World)
    requires Evolves(u, w) && Evolves(w, v)
    ensures Evolves(u, v)
  {
  }

  lemma MovesSettled(w: World, e: Event)
    requires Ready(w, e) && !e.Accept?
    ensures Settled(w.hs[e.h], Move(w, e))
  {
    hide Obeys;
  }

  lemma StreamsGrow(w: World, e: Event)
    requires Ready(w, e) && StreamsExist(w)
    ensures forall p :: p in w.ctl ==> p in NextStreams(w, e) && w.ctl[p].log <= NextStreams(w, e)[p].log
    ensures w.tables.connCID <= NextTables(w, e).connCID
  {
    hide Obeys;
  }

  lemma WorldEvolves(w: World, e: Event)
    requires Ready(w, e) && StreamsExist(w)
    ensures Evolves(w, Next(w, e))
  {
    hide Obeys;
    StreamsGrow(w, e);
    if !e.Accept? {
      MovesSettled(w, e);
    }
  }

  /** The assumptions only get stronger along a run. */
  lemma AssumptionsPersist(w: World, v: World)
    requires Evolves(w, v)
    ensures HostsClean(v) ==> HostsClean(w)
    ensures KeysApart(v) ==> KeysApart(w)
    ensures PhonesHonest(v) ==> PhonesHonest(w)
  {
    forall id | IssuedId(w, id) ensures IssuedId(v, id) {
      var k :| 0 < k <= w.tables.connCID && id == ClientId(k);
      assert 0 < k <= v.tables.connCID;
    }
    if HostsClean(v) {
      forall h | h in w.hs && w.hs[h].role.Client? ensures '\n' !in w.hs[h].role.host {
        assert v.hs[h].role == w.hs[h].role;
      }
    }
    if KeysApart(v) {
      forall h | h in w.hs && w.hs[h].role.Legacy? ensures !IssuedId(w, w.hs[h].role.id) {
        assert v.hs[h].role == w.hs[h].role;
      }
    }
    if PhonesHonest(v) {
      forall h | h in w.hs && w.hs[h].role.Data? && w.hs[h].role.origin.None?
        ensures !IssuedId(w, w.hs[h].role.id)
      {
        assert v.hs[h].role == w.hs[h].role;
      }
    }
  }

  // ---- Control streams ----

  /** The entry says what its author is or asked for. */
  ghost predicate EntryOk(w: World, p: Conn, n: Entry) {
    match n.msg
    case Identify(k) => p in w.hs && w.hs[p].role == Phone(k)
    case AnyClient => true
    case ClientFor(_, _) =>
      n.author in w.hs && w.hs[n.author].role.Client? && 0 < w.hs[n.author].issued && n.msg == LineFor(w.hs[n.author])
  }

  ghost predicate StreamOk(w: World, p: Conn, s: Stream) {
    && (forall i :: 0 <= i < |s.log| ==> EntryOk(w, p, s.log[i]))
    && (HostsClean(w) ==> '\n' !in s.tail)
  }

  ghost predicate StreamsOk(w: World) {
    forall p :: p in w.ctl ==> StreamOk(w, p, w.ctl[p])
  }

  lemma StreamOkEvolves(w: World, v: World, p: Conn, s: Stream)
    requires StreamOk(w, p, s) && Evolves(w, v)
    ensures StreamOk(v, p, s)
  {
    AssumptionsPersist(w, v);
    forall i | 0 <= i < |s.log| ensures EntryOk(v, p, s.log[i]) {
      assert EntryOk(w, p, s.log[i]);
    }
  }

  lemma EntryFramable(w: World, p: Conn, n: Entry)
    requires EntryOk(w, p, n) && HostsClean(w)
    ensures Framable(n.msg)
  {
    if n.msg.ClientFor? {
      var x := w.hs[n.author];
      DecDenotes(x.issued);
      assert ClientId(x.issued)[1..] == Dec(x.issued);
      JoinHostPortShape(x.role.host, x.role.port);
    }
  }

  /** A write that fails part-way leaves no newline behind. */
  lemma EmitKeeps(w: World, p: Conn, s: Stream, n: Entry, k: nat)
    requires StreamOk(w, p, s) && EntryOk(w, p, n)
    ensures StreamOk(w, p, Emit(s, n.author, n.msg, k))
  {
    if HostsClean(w) && k < |Encode(n.msg)| {
      EntryFramable(w, p, n);
      MessageRoundTrip(n.msg, "");
      assert Encode(n.msg)[..k] <= Encode(n.msg)[..|Encode(n.msg)| - 1];
    }
  }

  lemma NotifyKeeps(w: World, e: Event)
    requires e.Notify? && Ready(w, e) && StreamsExist(w)
    requires StreamOk(w, w.hs[e.h].pc.sc, w.ctl[w.hs[e.h].pc.sc])
    ensures var sc := w.hs[e.h].pc.sc; StreamOk(Next(w, e), sc, NextStreams(w, e)[sc])
  {
    var v, sc := Next(w, e), w.hs[e.h].pc.sc;
    WorldEvolves(w, e);
    StreamOkEvolves(w, v, sc, w.ctl[sc]);
    EmitKeeps(v, sc, w.ctl[sc], Entry(e.h, LineFor(w.hs[e.h])), e.k);
  }

  lemma LegacyNotifyKeeps(w: World, e: Event)
    requires e.LegacyNotify? && Ready(w, e) && StreamsExist(w)
    requires StreamOk(w, w.hs[e.h].pc.sc, w.ctl[w.hs[e.h].pc.sc])
    ensures var sc := w.hs[e.h].pc.sc; StreamOk(Next(w, e), sc, NextStreams(w, e)[sc])
  {
    var v, sc := Next(w, e), w.hs[e.h].pc.sc;
    WorldEvolves(w, e);
    StreamOkEvolves(w, v, sc, w.ctl[sc]);
    EmitKeeps(v, sc, w.ctl[sc], Entry(e.h, AnyClient), e.k);
  }

  lemma AnnounceKeeps(w: World, e: Event)
    requires e.Announce? && Ready(w, e) && StreamsExist(w) && StreamOk(w, e.h, w.ctl[e.h])
    ensures StreamOk(Next(w, e), e.h, NextStreams(w, e)[e.h])
  {
    var v := Next(w, e);
    WorldEvolves(w, e);
    StreamOkEvolves(w, v, e.h, w.ctl[e.h]);
    EmitKeeps(v, e.h, w.ctl[e.h], Entry(e.h, Identify(w.hs[e.h].role.k)), e.k);
  }

  /** A stream the step does not write to. */
  predicate Untouched(w: World, e: Event, p: Conn)
    requires Enabled(w, e)
  {
    p in w.ctl && p in NextStreams(w, e) && NextStreams(w, e)[p] == w.ctl[p]
  }

  lemma StreamsStep(w: World, e: Event)
    requires Ready(w, e) && StreamsExist(w) && StreamsOk(w)
    ensures StreamsOk(Next(w, e))
  {
    WorldEvolves(w, e);
    forall p | p in NextStreams(w, e) ensures StreamOk(Next(w, e), p, NextStreams(w, e)[p]) {
      StreamStep(w, e, p);
    }
  }

  lemma StreamStep(w: World, e: Event, p: Conn)
    requires Ready(w, e) && StreamsExist(w) && StreamsOk(w) && p in NextStreams(w, e)
    ensures StreamOk(Next(w, e), p, NextStreams(w, e)[p])
  {
    hide Obeys;
    if Untouched(w, e, p) {
      WorldEvolves(w, e);
      StreamOkEvolves(w, Next(w, e), p, w.ctl[p]);
    } else if e.Notify? {
      NotifyKeeps(w, e);
    } else if e.LegacyNotify? {
      LegacyNotifyKeeps(w, e);
    } else if e.Announce? {
      AnnounceKeeps(w, e);
    } else {
      assert e.RegisterIt?;
    }
  }

  // ---- Where data connections come from ----

  /** Line `i` of the log told the phone to open a connection under `id`. */
  predicate Told(log: seq<Entry>, i: nat, id: string) {
    && 0 < i < |log| && log[0].msg.Identify?
    && var order := Meaning(log[i].msg, PhoneId(log[0].msg.phone));
       order.Some? && order.value.id == id
  }

  ghost predicate OriginOk(w: World, r: Role) {
    r.Data? && r.origin.Some? ==>
      r.origin.value.phone in w.ctl && Told(w.ctl[r.origin.value.phone].log, r.origin.value.line, r.id)
  }

  ghost predicate OriginsOk(w: World) {
    forall d :: d in w.hs ==> OriginOk(w, w.hs[d].role)
  }

  lemma OrderedIsTold(w: World, o: Origin, read: nat)
    requires StreamsOk(w) && HostsClean(w) && OrderOf(w, o, read).Some?
    ensures Told(w.ctl[o.phone].log, o.line, OrderOf(w, o, read).value.id)
  {
    var s := w.ctl[o.phone];
    assert StreamOk(w, o.phone, s);
    forall m | m in Messages(s.log) ensures Framable(m) {
      var i :| 0 <= i < |s.log| && s.log[i].msg == m;
      EntryFramable(w, o.phone, s.log[i]);
    }
    OrderComesFromMessage(Messages(s.log), s.tail, read, o.line);
  }

  /** An order's id is one the relay issued, so the relay reads it back as sent. */
  lemma OrderIsDispatched(w: World, o: Origin, read: nat)
    requires StreamsOk(w) && HostsClean(w) && OrderOf(w, o, read).Some?
    ensures var id := OrderOf(w, o, read).value.id; Dispatch(DataRequest(id)) == DataLine(id)
  {
    OrderedIsTold(w, o, read);
    var log := w.ctl[o.phone].log;
    assert StreamOk(w, o.phone, w.ctl[o.phone]);
    assert EntryOk(w, o.phone, log[o.line]);
    IssuedIdRoundTrip(log[0].msg.phone);
    if log[o.line].msg.ClientFor? {
      IssuedIdRoundTrip(w.hs[log[o.line].author].issued);
    }
  }

  lemma RoleOfOrigin(w: World, e: Event)
    requires Ready(w, e) && StreamsOk(w) && HostsClean(w)
    requires e.Accept? || OriginOk(w, w.hs[e.h].role)
    ensures OriginOk(w, Move(w, e).role)
  {
    if e.Begin? && e.opening.OpenForOrder? {
      OrderedIsTold(w, e.opening.origin, e.opening.read);
      OrderIsDispatched(w, e.opening.origin, e.opening.read);
    }
  }

  lemma OriginsStep(w: World, e: Event)
    requires Ready(w, e) && StreamsExist(w) && StreamsOk(w) && HostsClean(w) && OriginsOk(w)
    ensures OriginsOk(Next(w, e))
  {
    var v := Next(w, e);
    WorldEvolves(w, e);
    RoleOfOrigin(w, e);
    forall d | d in v.hs ensures OriginOk(v, v.hs[d].role) {
      assert OriginOk(w, v.hs[d].role);
    }
  }

  /** What client `h` received is a data connection opened for the message that its own handler
      wrote.  Messages are counted, so this speaks of lines only while every message is one. */
  ghost predicate FromOwnLine(w: World, h: Conn)
    requires h in w.hs && w.hs[h].role.Client? && w.hs[h].got.Some?
  {
    var d := w.hs[h].got.value;
    && d in w.hs && w.hs[d].role.Data? && w.hs[d].role.origin.Some?
    && var o := w.hs[d].role.origin.value;
       && o.phone in w.ctl && o.line < |w.ctl[o.phone].log|
       && w.ctl[o.phone].log[o.line] == Entry(h, LineFor(w.hs[h]))
  }

  /** What client `h` received is a data connection that a phone opened for an order, and the order
      names the client's own number, and a target that reads as the host and port it asked for. */
  ghost predicate FromOwnOrder(w: World, h: Conn)
    requires h in w.hs && w.hs[h].role.Client? && w.hs[h].got.Some?
  {
    var d := w.hs[h].got.value;
    && d in w.hs && w.hs[d].role.Data? && w.hs[d].role.origin.Some?
    && var o := w.hs[d].role.origin.value;
       && o.phone in w.ctl && OrdersFor(OrderAt(BytesOf(w.ctl[o.phone]), o.line), w.hs[h])
  }

  ghost predicate OrdersFor(order: Option<Order>, x: Handler)
    requires x.role.Client?
  {
    && order.Some? && order.value.OpenTarget? && order.value.id == ClientId(x.issued)
    && ReadsAs(order.value.target, x.role.host, x.role.port)
  }

  // ---- The order a data connection was opened for stays what it was ----

  predicate TailOk(s: Stream) {
    !s.broken ==> s.tail == ""
  }

  lemma EmitWhole(s: Stream, author: Conn, m: Message, k: nat)
    requires TailOk(s) && Fits(s, m, k)
    ensures BytesOf(Emit(s, author, m, k)) == BytesOf(s) + Encode(m)
  {
    hide Encode, Wire;
    assert Messages(Emit(s, author, m, k).log) == Messages(s.log) + [m];
    WireAppend(Messages(s.log), m);
    assert s.tail == "";
  }

  /** A write adds to the stream exactly the bytes that were accepted, and nothing after a failure. */
  lemma EmitExtends(s: Stream, author: Conn, m: Message, k: nat)
    requires TailOk(s)
    ensures TailOk(Emit(s, author, m, k)) && BytesOf(s) <= BytesOf(Emit(s, author, m, k))
    ensures BytesOf(Emit(s, author, m, k))
            == BytesOf(s) + if s.broken then "" else Encode(m)[..if k < |Encode(m)| then k else |Encode(m)|]
    ensures Emit(s, author, m, k).broken <==> s.broken || k < |Encode(m)|
  {
    hide Encode, Wire;
    if Fits(s, m, k) {
      EmitWhole(s, author, m, k);
      assert Encode(m)[..|Encode(m)|] == Encode(m);
    } else if !s.broken {
      assert s.tail == "";
      assert Wire(Messages(s.log)) + "" == Wire(Messages(s.log));
    } else {
      assert BytesOf(s) + "" == BytesOf(s);
    }
  }

  ghost predicate TailsOk(w: World) {
    forall p :: p in w.ctl ==> TailOk(w.ctl[p])
  }

  /** The message a step writes on a control stream. */
  function Written(w: World, e: Event): Message
    requires Ready(w, e) && (e.Notify? || e.LegacyNotify? || e.Announce?)
  {
    if e.Notify? then LineFor(w.hs[e.h]) else if e.LegacyNotify? then AnyClient else Identify(w.hs[e.h].role.k)
  }

  lemma OnlyWritersTouch(w: World, e: Event, p: Conn)
    requires Ready(w, e) && StreamsExist(w) && p in NextStreams(w, e) && !Untouched(w, e, p)
    ensures if p !in w.ctl then NextStreams(w, e)[p] == Stream([], "", false)
            else (e.Notify? || e.LegacyNotify? || e.Announce?)
                 && NextStreams(w, e)[p] == Emit(w.ctl[p], e.h, Written(w, e), e.k)
  {
    hide Obeys, Emit;
  }

  /** Bytes on a control stream are never taken back. */
  lemma BytesGrow(w: World, e: Event, p: Conn)
    requires Ready(w, e) && StreamsExist(w) && TailsOk(w) && p in NextStreams(w, e)
    ensures TailOk(NextStreams(w, e)[p])
    ensures p in w.ctl ==> BytesOf(w.ctl[p]) <= BytesOf(NextStreams(w, e)[p])
  {
    hide Obeys, HandlerOk, BytesOf, Emit, NextStreams;
    if !Untouched(w, e, p) {
      OnlyWritersTouch(w, e, p);
      if p in w.ctl {
        EmitExtends(w.ctl[p], e.h, Written(w, e), e.k);
      }
    }
  }

  /** A data connection with an origin was opened for the order that stands at that line, and its
      first line was the one that phones send for it. */
  ghost predicate OpenedForOrder(w: World, r: Role) {
    r.Data? && r.origin.Some? ==>
      var o := r.origin.value;
      && o.phone in w.ctl
      && var order := OrderAt(BytesOf(w.ctl[o.phone]), o.line);
         order.Some? && Dispatch(DataRequest(order.value.id)) == DataLine(r.id)
  }

  ghost predicate OrdersStand(w: World) {
    TailsOk(w) && forall d :: d in w.hs ==> OpenedForOrder(w, w.hs[d].role)
  }

  lemma OpenedStands(w: World, e: Event, r: Role)
    requires Ready(w, e) && StreamsExist(w) && TailsOk(w) && OpenedForOrder(w, r)
    ensures OpenedForOrder(Next(w, e), r)
  {
    if r.Data? && r.origin.Some? {
      var o, v := r.origin.value, Next(w, e);
      StreamsGrow(w, e);
      BytesGrow(w, e, o.phone);
      OrderStands(BytesOf(w.ctl[o.phone]), BytesOf(v.ctl[o.phone]), o.line);
    }
  }

  lemma OpensForOrder(w: World, e: Event)
    requires e.Begin? && Enabled(w, e) && OpenedForOrder(w, w.hs[e.h].role)
    ensures OpenedForOrder(w, Move(w, e).role)
  {
    hide OrderAt, Dispatch;
    if e.opening.OpenForOrder? {
      var o, read := e.opening.origin, e.opening.read;
      assert OrderOf(w, o, read).Some?;
      OrderStands(BytesOf(w.ctl[o.phone])[..read], BytesOf(w.ctl[o.phone]), o.line);
    }
  }

  lemma OnlyBeginOpens(w: World, e: Event)
    requires Ready(w, e) && !e.Begin?
    ensures Move(w, e).role.Data? ==> !e.Accept? && Move(w, e).role == w.hs[e.h].role
  {
    hide Obeys;
  }

  lemma OrdersStandStep(w: World, e: Event)
    requires Ready(w, e) && StreamsExist(w) && OrdersStand(w)
    ensures OrdersStand(Next(w, e))
  {
    var v := Next(w, e);
    forall p | p in v.ctl ensures TailOk(v.ctl[p]) {
      BytesGrow(w, e, p);
    }
    forall d | d in v.hs ensures OpenedForOrder(v, v.hs[d].role) {
      if d != e.h {
      } else if e.Begin? {
        OpensForOrder(w, e);
      } else {
        OnlyBeginOpens(w, e);
      }
      OpenedStands(w, e, v.hs[d].role);
    }
  }
}
