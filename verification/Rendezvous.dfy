/** The relay's rendezvous protocol as a transition system.  Every accepted connection is
    served by one handler with its own program counter; each mutex section, each write, the
    channel send, the channel receive and the timeout decision is one atomic step, and any
    handler may take the next one. */
module Rendezvous {
  import opened Text
  import opened Control
  import opened RelayTables
  import Socks5

  // ---- Bytes written to a SOCKS5 client ----

  type Byte = Socks5.Byte

  datatype Reply = Method | Final(code: Byte)

  const GRANTED: Byte := 0
  const NO_PHONE: Byte := 1
  const TIMED_OUT: Byte := 3

  function ReplyBytes(r: Reply): seq<Byte> {
    match r
    case Method => Socks5.METHOD_REPLY
    case Final(code) => Socks5.FinalReply(code)
  }

  function AllBytes(rs: seq<Reply>): seq<Byte> {
    if rs == [] then [] else AllBytes(rs[..|rs| - 1]) + ReplyBytes(rs[|rs| - 1])
  }

  // ---- Handlers ----

  /** The control line a data connection was opened for: line `line` on phone `phone`. */
  datatype Origin = Origin(phone: Conn, line: nat)

  datatype Role =
    | Unknown
    | Client(host: string, port: nat)
    | Legacy(id: string)
    | Data(id: string, origin: Option<Origin>)  // no origin: not opened by a phone for a line
    | Phone(k: nat)

  datatype Pc =
    | Accepted
      // SOCKS5 client
    | Greeting
    | Requesting
    | PickPhone
    | Parking(phone: string, seen: Option<Conn>)
    | Finding(phone: string, seen: Option<Conn>)
    | Notifying(sc: Conn, seen: Option<Conn>)
    | Waiting
    | Unparking(code: Byte)
    | Replying(code: Byte)
      // legacy client
    | LegacyParking
    | LegacyFinding
    | LegacyNotifying(sc: Conn)
    | LegacyWaiting
      // data connection
    | Claiming
    | Sending(ch: Conn)
      // phone
    | Registering
    | Announcing
    | Listening
    | Leaving
      // all
    | Piping
    | Closed

  /** What a handler told its SOCKS5 client: the replies it wrote, the bytes of them that the
      connection accepted, and whether a write has failed: nothing passes after that. */
  datatype Said = Said(offers: seq<Reply>, out: seq<Byte>, dead: bool)

  const SILENT := Said([], [], false)

  /** One reply write of which the connection accepts `k` bytes. */
  function Tell(s: Said, r: Reply, k: nat): Said {
    var bytes := ReplyBytes(r);
    Said(s.offers + [r],
         s.out + if s.dead then [] else bytes[..if k < |bytes| then k else |bytes|],
         s.dead || k < |bytes|)
  }

  /** `issued` is the client number the handler drew (0: none yet), `got` the data connection
      it received, `gave` the channel it sent its own connection into, and `wrote` whether its
      control line went out whole. */
  datatype Handler = Handler(
    role: Role, pc: Pc, issued: nat, got: Option<Conn>, gave: Option<Conn>, wrote: bool, said: Said)

  const NEW := Handler(Unknown, Accepted, 0, None, None, false, SILENT)

  // ---- Channels and control streams ----

  /** A capacity-1 channel, named after the handler that made it, with all it ever carried. */
  datatype Chan = Chan(held: seq<Conn>, sent: seq<Conn>)

  datatype Entry = Entry(author: Conn, msg: Message)

  /** What was written on a registered connection: whole messages, then, if a write failed,
      the part of it that still went out. */
  datatype Stream = Stream(log: seq<Entry>, tail: string, broken: bool)

  function Messages(log: seq<Entry>): seq<Message> {
    seq(|log|, i requires 0 <= i < |log| => log[i].msg)
  }

  function BytesOf(s: Stream): string {
    Wire(Messages(s.log)) + s.tail
  }

  predicate Fits(s: Stream, m: Message, k: nat) {
    !s.broken && |Encode(m)| <= k
  }

  /** One write of a control message of which the connection accepts `k` bytes. */
  function Emit(s: Stream, author: Conn, m: Message, k: nat): Stream {
    if s.broken then s
    else if Fits(s, m, k) then s.(log := s.log + [Entry(author, m)])
    else s.(tail := Encode(m)[..k], broken := true)
  }

  // ---- The whole system ----

  datatype World = World(
    tables: Tables,
    hs: map<Conn, Handler>,
    chans: map<Conn, Chan>,
    ctl: map<Conn, Stream>)

  const INITIAL := World(EMPTY, map[], map[], map[])

  /** How a connection begins: a byte 5, a first line, or the first line a phone sends for the
      order in line `origin` of its control stream, of which it has read `read` bytes. */
  datatype Opening =
    | OpenSocks
    | OpenLine(first: FirstLine)
    | OpenForOrder(first: FirstLine, origin: Origin, read: nat)

  datatype Event =
    | Accept(h: Conn)
    | Begin(h: Conn, opening: Opening)
    | Greet(h: Conn, ok: bool, k: nat)
    | Request(h: Conn, outcome: Socks5.Outcome, ip: string)  // `ip` prints a numeric address
    | ReadLast(h: Conn)
    | ParkIt(h: Conn)
    | Find(h: Conn)
    | Notify(h: Conn, k: nat)
    | Receive(h: Conn)
    | Timeout(h: Conn)
    | UnparkIt(h: Conn)
    | ReplyIt(h: Conn, k: nat)
    | LegacyPark(h: Conn)
    | LegacyFind(h: Conn)
    | LegacyNotify(h: Conn, k: nat)
    | LegacyReceive(h: Conn)
    | LegacyTimeout(h: Conn)
    | ClaimIt(h: Conn)
    | Send(h: Conn)
    | RegisterIt(h: Conn)
    | Announce(h: Conn, k: nat)
    | HangUp(h: Conn)
    | UnregisterIt(h: Conn)
    | Finish(h: Conn)

  function Target(r: Role): string
    requires r.Client?
  {
    JoinHostPort(r.host, r.port)
  }

  /** The control line a SOCKS5 handler writes for its client. */
  function LineFor(x: Handler): Message
    requires x.role.Client?
  {
    ClientFor(ClientId(x.issued), Target(x.role))
  }

  /** The order in line `o.line` of a control stream, as far as its phone has read it. */
  function OrderOf(w: World, o: Origin, read: nat): Option<Order> {
    if o.phone in w.ctl && read <= |BytesOf(w.ctl[o.phone])| then OrderAt(BytesOf(w.ctl[o.phone])[..read], o.line)
    else None
  }

  /** The first line is the one a phone sends for that order. */
  predicate Obeys(w: World, first: FirstLine, o: Origin, read: nat) {
    var order := OrderOf(w, o, read);
    order.Some? && first == Dispatch(DataRequest(order.value.id))
  }

  /** Something is in handler `h`'s channel. */
  predicate Arrived(w: World, h: Conn) {
    h in w.chans && w.chans[h].held != []
  }

  /** What the request parser can return; a numeric address prints on one line. */
  predicate Possible(o: Socks5.Outcome, ip: string) {
    o.Connect? ==> Socks5.ValidRequest(o.req) && (o.req.atyp == Socks5.DOMAIN || '\n' !in ip)
  }

  /** The handler is at the program point where this step is its next one.  The send blocks
      while the channel is full and the receive while it is empty. */
  predicate Enabled(w: World, e: Event) {
    if e.Accept? then e.h !in w.hs
    else
      && e.h in w.hs
      && var x := w.hs[e.h];
         match e
         case Accept(_) => false
         case Begin(_, opening) =>
           x.pc.Accepted? && (opening.OpenForOrder? ==> Obeys(w, opening.first, opening.origin, opening.read))
         case Greet(_, _, _) => x.pc.Greeting?
         case Request(_, outcome, ip) => x.pc.Requesting? && Possible(outcome, ip)
         case ReadLast(_) => x.pc.PickPhone?
         case ParkIt(_) => x.pc.Parking?
         case Find(_) => x.pc.Finding?
         case Notify(_, _) => x.pc.Notifying? && x.role.Client? && x.pc.sc in w.ctl
         case Receive(_) => x.pc.Waiting? && Arrived(w, e.h)
         case Timeout(_) => x.pc.Waiting?
         case UnparkIt(_) => x.pc.Unparking?
         case ReplyIt(_, _) => x.pc.Replying?
         case LegacyPark(_) => x.pc.LegacyParking? && x.role.Legacy?
         case LegacyFind(_) => x.pc.LegacyFinding? && x.role.Legacy?
         case LegacyNotify(_, _) => x.pc.LegacyNotifying? && x.pc.sc in w.ctl
         case LegacyReceive(_) => x.pc.LegacyWaiting? && Arrived(w, e.h)
         case LegacyTimeout(_) => x.pc.LegacyWaiting?
         case ClaimIt(_) => x.pc.Claiming? && x.role.Data?
         case Send(_) => x.pc.Sending? && x.pc.ch in w.chans && |w.chans[x.pc.ch].held| < 1
         case RegisterIt(_) => x.pc.Registering?
         case Announce(_, _) => x.pc.Announcing? && x.role.Phone? && e.h in w.ctl
         case HangUp(_) => x.pc.Listening?
         case UnregisterIt(_) => x.pc.Leaving? && x.role.Phone?
         case Finish(_) => x.pc.Piping?
  }

  /** The dispatch on a connection's first line; a legacy client must name an id. */
  function Serve(x: Handler, first: FirstLine, origin: Option<Origin>): Handler {
    match first
    case RegisterLine => x.(pc := Registering)
    case ConnectLine(id) => if id == "" then x.(pc := Closed) else x.(role := Legacy(id), pc := LegacyParking)
    case DataLine(id) => x.(role := Data(id, origin), pc := Claiming)
    case OtherLine => x.(pc := Closed)
  }

  function Start(x: Handler, opening: Opening): Handler {
    match opening
    case OpenSocks => x.(pc := Greeting)
    case OpenLine(first) => Serve(x, first, None)
    case OpenForOrder(first, o, _) => Serve(x, first, Some(o))
  }

  function Chars(bytes: seq<Byte>): string {
    seq(|bytes|, i requires 0 <= i < |bytes| => bytes[i] as char)
  }

  /** A domain is taken as its bytes, a numeric address as the library prints it. */
  function HostOf(req: Socks5.Request, ip: string): string {
    if req.atyp == Socks5.DOMAIN then Chars(req.addr) else ip
  }

  function AfterRequest(x: Handler, o: Socks5.Outcome, ip: string): Handler {
    match o
    case BadCommand => x.(pc := Replying(Socks5.BAD_COMMAND))
    case BadAddress => x.(pc := Replying(Socks5.BAD_ADDRESS))
    case Connect(req) => x.(role := Client(HostOf(req, ip), req.port), pc := PickPhone)
    case _ => x.(pc := Closed)
  }

  /** The stepping handler after the step. */
  function Move(w: World, e: Event): Handler
    requires Enabled(w, e)
  {
    if e.Accept? then NEW
    else
      var x := w.hs[e.h];
      match e
      case Begin(_, opening) => Start(x, opening)
      case Greet(_, ok, k) => if ok then x.(said := Tell(x.said, Method, k), pc := Requesting) else x.(pc := Closed)
      case Request(_, o, ip) => AfterRequest(x, o, ip)
      case ReadLast(_) =>
        var id := w.tables.lastPhone;
        x.(pc := if id == "" then Replying(NO_PHONE) else Parking(id, Lookup(w.tables, id)))
      case ParkIt(_) => x.(issued := w.tables.connCID + 1, pc := Finding(x.pc.phone, x.pc.seen))
      case Find(_) =>
        var found := Lookup(w.tables, x.pc.phone);
        x.(pc := if found.Some? then Notifying(found.value, x.pc.seen) else Unparking(NO_PHONE))
      case Notify(_, k) =>
        var ok := Fits(w.ctl[x.pc.sc], LineFor(x), k);
        x.(wrote := ok, pc := if ok then Waiting else Unparking(NO_PHONE))
      case Receive(_) => x.(got := Some(w.chans[e.h].held[0]), pc := Replying(GRANTED))
      case Timeout(_) => x.(pc := Unparking(TIMED_OUT))
      case UnparkIt(_) => x.(pc := Replying(x.pc.code))
      case ReplyIt(_, k) =>
        x.(said := Tell(x.said, Final(x.pc.code), k), pc := if x.pc.code == GRANTED then Piping else Closed)
      case LegacyPark(_) => x.(pc := LegacyFinding)
      case LegacyFind(_) =>
        var found := Lookup(w.tables, x.role.id);
        x.(pc := if found.Some? then LegacyNotifying(found.value) else LegacyWaiting)
      case LegacyNotify(_, _) => x.(pc := LegacyWaiting)
      case LegacyReceive(_) => x.(got := Some(w.chans[e.h].held[0]), pc := Piping)
      case LegacyTimeout(_) => x.(pc := Closed)
      case ClaimIt(_) =>
        var entry := Waiter(w.tables, x.role.id);
        x.(pc := if entry.Some? then Sending(entry.value.dataCh) else Closed)
      case Send(_) => x.(gave := Some(x.pc.ch), pc := Closed)
      case RegisterIt(_) => x.(role := Phone(w.tables.nextID + 1), pc := Announcing)
      case Announce(_, _) => x.(pc := Listening)
      case HangUp(_) => x.(pc := Leaving)
      case UnregisterIt(_) => x.(pc := Closed)
      case Finish(_) => x.(pc := Closed)
  }

  /** The mutex section the step runs, if any. */
  function NextTables(w: World, e: Event): Tables
    requires Enabled(w, e)
  {
    match e
    case ParkIt(h) => Park(w.tables, h, h)
    case UnparkIt(h) => Unpark(w.tables, ClientId(w.hs[h].issued))
    case LegacyPark(h) => ParkAs(w.tables, w.hs[h].role.id, h, h)
    case ClaimIt(h) => Unpark(w.tables, w.hs[h].role.id)
    case RegisterIt(h) => Register(w.tables, h)
    case UnregisterIt(h) => Unregister(w.tables, PhoneId(w.hs[h].role.k))
    case _ => w.tables
  }

  /** Channels are made when a client parks, sent to once claimed, and received from. */
  function NextChans(w: World, e: Event): map<Conn, Chan>
    requires Enabled(w, e)
  {
    match e
    case ParkIt(h) => w.chans[h := Chan([], [])]
    case LegacyPark(h) => w.chans[h := Chan([], [])]
    case Receive(h) => w.chans[h := w.chans[h].(held := w.chans[h].held[1..])]
    case LegacyReceive(h) => w.chans[h := w.chans[h].(held := w.chans[h].held[1..])]
    case Send(h) =>
      var ch := w.hs[h].pc.ch;
      w.chans[ch := Chan(w.chans[ch].held + [h], w.chans[ch].sent + [h])]
    case _ => w.chans
  }

  /** Writes on registered connections. */
  function NextStreams(w: World, e: Event): map<Conn, Stream>
    requires Enabled(w, e)
  {
    match e
    case Notify(h, k) =>
      var x := w.hs[h];
      w.ctl[x.pc.sc := Emit(w.ctl[x.pc.sc], h, LineFor(x), k)]
    case LegacyNotify(h, k) =>
      var sc := w.hs[h].pc.sc;
      w.ctl[sc := Emit(w.ctl[sc], h, AnyClient, k)]
    case RegisterIt(h) => w.ctl[h := Stream([], "", false)]
    case Announce(h, k) => w.ctl[h := Emit(w.ctl[h], h, Identify(w.hs[h].role.k), k)]
    case _ => w.ctl
  }

  /** One atomic step of handler `e.h`. */
  function Next(w: World, e: Event): World
    requires Enabled(w, e)
  {
    World(NextTables(w, e), w.hs[e.h := Move(w, e)], NextChans(w, e), NextStreams(w, e))
  }

  /** The state after a run, None when some event of it was not possible. */
  function Run(events: seq<Event>): Option<World> {
    if events == [] then Some(INITIAL)
    else
      var w := Run(events[..|events| - 1]);
      var e := events[|events| - 1];
      if w.Some? && Enabled(w.value, e) then Some(Next(w.value, e)) else None
  }
}
