/** The control channel between relay and phone: what the relay writes on a registered
    connection, and how the phone reads it back into orders to open data connections. */
module Control {
  import opened Text

  function PhoneId(k: nat): string { "p" + Dec(k) }

  function ClientId(k: nat): string { "c" + Dec(k) }

  lemma ClientIdInjective(i: nat, j: nat)
    requires ClientId(i) == ClientId(j)
    ensures i == j
  {
    assert ClientId(i)[1..] == Dec(i) && ClientId(j)[1..] == Dec(j);
    DecInjective(i, j);
  }

  lemma PhoneIdInjective(i: nat, j: nat)
    requires PhoneId(i) == PhoneId(j)
    ensures i == j
  {
    assert PhoneId(i)[1..] == Dec(i) && PhoneId(j)[1..] == Dec(j);
    DecInjective(i, j);
  }

  datatype Message =
    | Identify(phone: nat)                      // the answer to `register`
    | AnyClient                                 // a legacy `connect:` client is waiting
    | ClientFor(cid: string, target: string)    // a SOCKS5 client wants this target

  function Encode(m: Message): string {
    match m
    case Identify(k) => "id:" + PhoneId(k) + "\n"
    case AnyClient => "conn\n"
    case ClientFor(cid, target) => "conn:" + cid + ":" + target + "\n"
  }

  function Wire(ms: seq<Message>): string {
    if ms == [] then "" else Encode(ms[0]) + Wire(ms[1..])
  }

  /** What the phone does on a control line: open a data connection under this id. */
  datatype Order =
    | OpenLocal(id: string)
    | OpenTarget(id: string, target: string)

  function ParseOrder(line: string, self: string): Option<Order> {
    if HasPrefix(line, "conn:") then
      var rest := line[5..];
      var i := IndexOf(rest, ':');
      if i < |rest| then Some(OpenTarget(rest[..i], rest[i + 1..])) else None
    else if line == "conn" then Some(OpenLocal(self))
    else None
  }

  /** The order in line `i`.  Line 0 must be the `id:` answer, or the phone gives the
      connection up. */
  function OrderInLine(ls: seq<string>, i: nat): Option<Order> {
    if i == 0 || |ls| <= i then None
    else
      var answer := TrimSpace(ls[0]);
      if !HasPrefix(answer, "id:") then None
      else ParseOrder(TrimSpace(ls[i]), answer[3..])
  }

  function OrderAt(text: string, i: nat): Option<Order> {
    OrderInLine(LinesOf(text), i)
  }

  /** Every order a phone carries out, given the lines after the `id:` answer. */
  function Orders(lines: seq<string>, self: string): seq<Order> {
    if lines == [] then []
    else
      var o := ParseOrder(TrimSpace(lines[0]), self);
      (if o.Some? then [o.value] else []) + Orders(lines[1..], self)
  }

  /** The whole phone session on a control stream: None when the registration answer is bad. */
  function Session(text: string): Option<seq<Order>> {
    var ls := LinesOf(text);
    if ls == [] || !HasPrefix(TrimSpace(ls[0]), "id:") then None
    else Some(Orders(ls[1..], TrimSpace(ls[0])[3..]))
  }

  /** A line is an order exactly when it is `conn`, or `conn:`, an id without a colon, a colon, and
      a target; every other line is passed over. */
  lemma ParseOrderExactly(line: string, self: string, id: string, target: string)
    ensures ParseOrder(line, self) == Some(OpenLocal(id)) <==> line == "conn" && id == self
    ensures ParseOrder(line, self) == Some(OpenTarget(id, target)) <==>
            ':' !in id && line == "conn:" + (id + ":" + target)
  {
    if ':' !in id && line == "conn:" + (id + ":" + target) {
      ClientForParses(id, target, self);
    }
    if ParseOrder(line, self) == Some(OpenTarget(id, target)) {
      var rest := line[5..];
      var i := IndexOf(rest, ':');
      assert line == "conn:" + rest && rest == rest[..i] + ":" + rest[i + 1..];
    }
  }

  /** A session is refused exactly when the answer does not begin with `id:`, or there is none. */
  lemma SessionRefusedExactly(line: string, rest: string)
    ensures OneLine(line) ==> (Session(line + rest) == None <==> !HasPrefix(TrimSpace(line), "id:"))
    ensures '\n' !in rest ==> Session(rest) == None
  {
    if OneLine(line) {
      LinesOfCons(line, rest);
    }
  }

  /** Line `k` gives this order. */
  predicate GivesOrder(lines: seq<string>, k: nat, self: string, o: Order) {
    k < |lines| && ParseOrder(TrimSpace(lines[k]), self) == Some(o)
  }

  lemma {:induction false} OrdersAreGiven(lines: seq<string>, self: string, o: Order)
    ensures o in Orders(lines, self) <==> exists k: nat :: GivesOrder(lines, k, self, o)
  {
    hide ParseOrder, TrimSpace;
    if lines == [] {
    } else {
      OrdersAreGiven(lines[1..], self, o);
      if k: nat :| GivesOrder(lines, k, self, o) {
        assert k == 0 || GivesOrder(lines[1..], k - 1, self, o);
      }
      if k: nat :| GivesOrder(lines[1..], k, self, o) {
        assert GivesOrder(lines, k + 1, self, o);
      }
      if GivesFirst(lines, self, o) {
        assert GivesOrder(lines, 0, self, o);
      }
    }
  }

  predicate GivesFirst(lines: seq<string>, self: string, o: Order) {
    lines != [] && ParseOrder(TrimSpace(lines[0]), self) == Some(o)
  }

  /** What a session carries out is exactly what stands in the lines after its `id:` answer. */
  lemma SessionIsItsLines(text: string, o: Order)
    ensures Session(text).Some? && o in Session(text).value <==> exists i: nat :: OrderAt(text, i) == Some(o)
  {
    hide ParseOrder, TrimSpace, LinesOf;
    var ls := LinesOf(text);
    if ls != [] {
      var self := if 3 <= |TrimSpace(ls[0])| then TrimSpace(ls[0])[3..] else "";
      OrdersAreGiven(ls[1..], self, o);
      if k: nat :| GivesOrder(ls[1..], k, self, o) {
        assert Session(text).Some? ==> OrderAt(text, k + 1) == Some(o);
      }
      if i: nat :| OrderAt(text, i) == Some(o) {
        assert GivesOrder(ls[1..], i - 1, self, o);
      }
    }
  }

  /** The texts on the wire. */
  lemma ControlTexts()
    ensures Encode(Identify(12)) == "id:p12\n" && Encode(AnyClient) == "conn\n"
    ensures Encode(ClientFor(ClientId(7), "a.b:443")) == "conn:c7:a.b:443\n"
    ensures DataRequest(ClientId(7)) == "data:c7\n" && DataRequest(PhoneId(3)) == "data:p3\n"
  {
    assert Dec(12) == Dec(1) + ['2'] == "12";
    assert ClientId(7) == "c7" && PhoneId(3) == "p3" && PhoneId(12) == "p12";
  }

  // ---- The meaning the relay attaches to its messages ----

  function Meaning(m: Message, self: string): Option<Order> {
    match m
    case Identify(_) => None
    case AnyClient => Some(OpenLocal(self))
    case ClientFor(cid, target) => Some(OpenTarget(cid, target))
  }

  function Meanings(ms: seq<Message>, self: string): seq<Order> {
    if ms == [] then []
    else
      var o := Meaning(ms[0], self);
      (if o.Some? then [o.value] else []) + Meanings(ms[1..], self)
  }

  /** Messages that fit on a line: no newline, no colon in the id, and a target that does
      not end in white space (a joined host and port ends in a digit). */
  predicate Framable(m: Message) {
    m.ClientFor? ==>
      && ':' !in m.cid && '\n' !in m.cid && '\n' !in m.target
      && m.target != [] && !IsSpace(m.target[|m.target| - 1])
  }

  lemma IdentifyText(k: nat)
    ensures OneLine(Encode(Identify(k)))
    ensures TrimSpace(Encode(Identify(k))) == "id:" + PhoneId(k)
    ensures ("id:" + PhoneId(k))[3..] == PhoneId(k)
  {
    DecDenotes(k);
    var text := "id:" + PhoneId(k);
    assert text[|text| - 1] == Dec(k)[|Dec(k)| - 1];
    assert '\n' !in Dec(k);
    assert Encode(Identify(k))[..|text|] == text;
    TrimLine(text);
  }

  function ClientForText(cid: string, target: string): string {
    "conn:" + (cid + ":" + target)
  }

  /** Only the first colon after `conn:` separates, so colons in the target survive. */
  lemma ClientForParses(cid: string, target: string, self: string)
    requires ':' !in cid
    ensures ParseOrder(ClientForText(cid, target), self) == Some(OpenTarget(cid, target))
  {
    var rest := cid + ":" + target;
    assert ClientForText(cid, target)[5..] == rest;
    assert ClientForText(cid, target)[..5] == "conn:";
    assert rest[..|cid|] == cid && rest[|cid| + 1..] == target;
    IndexOfUnique(rest, ':', |cid|);
  }

  lemma ClientForLine(cid: string, target: string)
    requires Framable(ClientFor(cid, target))
    ensures OneLine(Encode(ClientFor(cid, target)))
    ensures TrimSpace(Encode(ClientFor(cid, target))) == ClientForText(cid, target)
  {
    var text := ClientForText(cid, target);
    assert Encode(ClientFor(cid, target)) == text + "\n";
    assert text[|text| - 1] == target[|target| - 1];
    assert (text + "\n")[..|text|] == text;
    assert '\n' !in text;
    TrimLine(text);
  }

  /** One message is one line, and the line parses to the message's meaning. */
  lemma MessageRoundTrip(m: Message, self: string)
    requires Framable(m)
    ensures OneLine(Encode(m))
    ensures ParseOrder(TrimSpace(Encode(m)), self) == Meaning(m, self)
    ensures HasPrefix(TrimSpace(Encode(m)), "id:") <==> m.Identify?
    ensures m.Identify? ==> TrimSpace(Encode(m))[3..] == PhoneId(m.phone)
  {
    match m
    case Identify(k) => IdentifyText(k);
    case AnyClient => TrimLine("conn"); assert "conn" + "\n" == Encode(m);
    case ClientFor(cid, target) =>
      ClientForLine(cid, target);
      ClientForParses(cid, target, self);
      assert ClientForText(cid, target)[0] == 'c';
  }

  function Encodings(ms: seq<Message>): seq<string> {
    seq(|ms|, i requires 0 <= i < |ms| => Encode(ms[i]))
  }

  lemma EncodingsCons(ms: seq<Message>)
    requires ms != []
    ensures Encodings(ms) == [Encode(ms[0])] + Encodings(ms[1..])
  {
  }

  /** Splitting the byte stream into lines recovers the message boundaries; an unfinished
      last write adds no line. */
  lemma {:induction false} WireLines(ms: seq<Message>, tail: string)
    requires forall m :: m in ms ==> Framable(m)
    requires '\n' !in tail
    ensures LinesOf(Wire(ms) + tail) == Encodings(ms)
  {
    if ms == [] {
      assert Wire(ms) + tail == tail;
    } else {
      var line, rest := Encode(ms[0]), Wire(ms[1..]);
      assert OneLine(line) by {
        MessageRoundTrip(ms[0], "");
      }
      Assoc(line, rest, tail);
      LinesOfCons(line, rest + tail);
      WireLines(ms[1..], tail);
      EncodingsCons(ms);
    }
  }

  lemma {:induction false} OrdersOfEncodings(ms: seq<Message>, self: string)
    requires forall m :: m in ms ==> Framable(m)
    ensures Orders(Encodings(ms), self) == Meanings(ms, self)
  {
    if ms == [] {
    } else {
      MessageRoundTrip(ms[0], self);
      EncodingsCons(ms);
      assert Encodings(ms)[1..] == Encodings(ms[1..]);
      OrdersOfEncodings(ms[1..], self);
    }
  }

  lemma SessionOfEncodings(text: string, k: nat, ms: seq<Message>)
    requires (forall m :: m in ms ==> Framable(m)) && LinesOf(text) == Encodings([Identify(k)] + ms)
    ensures Session(text) == Some(Orders(Encodings(ms), PhoneId(k)))
  {
    IdentifyText(k);
    assert ("id:" + PhoneId(k))[..3] == "id:";
    EncodingsCons([Identify(k)] + ms);
    assert ([Identify(k)] + ms)[1..] == ms;
    assert LinesOf(text)[1..] == Encodings(ms);
  }

  /** Framing round trip: a phone that registered as number `k` carries out exactly the
      orders the relay wrote, in order, whatever colons the targets contain. */
  lemma FramingRoundTrip(k: nat, ms: seq<Message>, tail: string)
    requires forall m :: m in ms ==> Framable(m)
    requires '\n' !in tail
    ensures Session(Wire([Identify(k)] + ms) + tail) == Some(Meanings(ms, PhoneId(k)))
  {
    WireLines([Identify(k)] + ms, tail);
    SessionOfEncodings(Wire([Identify(k)] + ms) + tail, k, ms);
    OrdersOfEncodings(ms, PhoneId(k));
  }

  lemma OrderInMoreLines(seen: seq<string>, ls: seq<string>, i: nat)
    requires seen <= ls && OrderInLine(seen, i).Some?
    ensures OrderInLine(ls, i) == OrderInLine(seen, i)
  {
    assert ls[0] == seen[0] && ls[i] == seen[i];
  }

  lemma OrderOfEncodings(ms: seq<Message>, i: nat)
    requires (forall m :: m in ms ==> Framable(m)) && OrderInLine(Encodings(ms), i).Some?
    ensures 0 < i < |ms| && ms[0].Identify?
    ensures OrderInLine(Encodings(ms), i) == Meaning(ms[i], PhoneId(ms[0].phone))
  {
    MessageRoundTrip(ms[0], "");
    MessageRoundTrip(ms[i], TrimSpace(Encode(ms[0]))[3..]);
  }

  /** Whatever prefix of the stream a phone has seen, an order it carries out is the meaning
      of the message that was written at that line. */
  lemma OrderComesFromMessage(ms: seq<Message>, tail: string, n: nat, i: nat)
    requires forall m :: m in ms ==> Framable(m)
    requires '\n' !in tail
    requires n <= |Wire(ms) + tail|
    requires OrderAt((Wire(ms) + tail)[..n], i).Some?
    ensures 0 < i < |ms| && ms[0].Identify?
    ensures OrderAt((Wire(ms) + tail)[..n], i) == Meaning(ms[i], PhoneId(ms[0].phone))
  {
    var text := Wire(ms) + tail;
    PrefixHasFirstLines(text, n);
    OrderInMoreLines(LinesOf(text[..n]), LinesOf(text), i);
    WireLines(ms, tail);
    OrderOfEncodings(ms, i);
  }

  /** Conversely, every message after the `id:` answer is read at its own line, as what it means. */
  lemma MessageIsRead(ms: seq<Message>, tail: string, i: nat)
    requires forall m :: m in ms ==> Framable(m)
    requires '\n' !in tail && 0 < i < |ms| && ms[0].Identify?
    ensures OrderAt(Wire(ms) + tail, i) == Meaning(ms[i], PhoneId(ms[0].phone))
  {
    hide Framable, ParseOrder, TrimSpace;
    WireLines(ms, tail);
    MessageRoundTrip(ms[0], "");
    MessageRoundTrip(ms[i], PhoneId(ms[0].phone));
  }

  lemma {:induction false} WireAppend(ms: seq<Message>, m: Message)
    ensures Wire(ms + [m]) == Wire(ms) + Encode(m)
  {
    hide Encode;
    if ms == [] {
      assert Wire([m]) == Encode(m) + Wire([]);
    } else {
      assert (ms + [m])[1..] == ms[1..] + [m];
      WireAppend(ms[1..], m);
    }
  }

  /** A line read early is read the same in whatever the stream becomes. */
  lemma OrderStands(text: string, longer: string, i: nat)
    requires text <= longer && OrderAt(text, i).Some?
    ensures OrderAt(longer, i) == OrderAt(text, i)
  {
    assert longer[..|text|] == text;
    PrefixHasFirstLines(longer, |text|);
    OrderInMoreLines(LinesOf(text), LinesOf(longer), i);
  }

  // ---- The first line of a connection to the relay ----

  datatype FirstLine =
    | RegisterLine
    | ConnectLine(id: string)
    | DataLine(id: string)
    | OtherLine

  /** strings.TrimRight(line, "\r\n") */
  function TrimEol(s: string): string {
    if s != [] && (s[|s| - 1] == '\r' || s[|s| - 1] == '\n') then TrimEol(s[..|s| - 1]) else s
  }

  function Dispatch(line: string): FirstLine {
    var l := TrimEol(line);
    if l == "register" then RegisterLine
    else if HasPrefix(l, "connect:") then ConnectLine(l[8..])
    else if HasPrefix(l, "data:") then DataLine(l[5..])
    else OtherLine
  }

  /** What a phone sends to open the data connection for an order. */
  function DataRequest(id: string): string {
    "data:" + id + "\n"
  }

  predicate EndsPlain(s: string) {
    s != [] && s[|s| - 1] != '\r' && s[|s| - 1] != '\n'
  }

  lemma TrimEolLine(text: string)
    requires EndsPlain(text)
    ensures TrimEol(text + "\n") == text && TrimEol(text + "\r\n") == text
  {
    assert (text + "\n")[..|text|] == text;
    assert (text + "\r\n")[..|text| + 1] == text + "\r";
    assert (text + "\r")[..|text|] == text;
  }

  lemma PrefixedLine(prefix: string, id: string)
    requires EndsPlain(id)
    ensures TrimEol(prefix + id + "\n") == prefix + id
    ensures (prefix + id)[|prefix|..] == id && HasPrefix(prefix + id, prefix)
  {
    var text := prefix + id;
    assert text[|text| - 1] == id[|id| - 1];
    TrimEolLine(text);
  }

  /** The lines phones and legacy clients send are taken for what they are. */
  lemma FirstLineRoundTrip(id: string)
    requires EndsPlain(id)
    ensures Dispatch("register\n") == RegisterLine
    ensures Dispatch("connect:" + id + "\n") == ConnectLine(id)
    ensures Dispatch(DataRequest(id)) == DataLine(id)
  {
    hide TrimEol;
    TrimEolLine("register");
    assert "register\n" == "register" + "\n";
    PrefixedLine("connect:", id);
    PrefixedLine("data:", id);
    assert ("connect:" + id)[0] == 'c' && ("data:" + id)[0] == 'd';
  }

  /** Trimming the line end takes off all returns and newlines there and nothing else. */
  lemma {:induction false} TrimEolExactly(s: string) returns (j: nat)
    ensures j <= |s| && TrimEol(s) == s[..j] && (forall k :: j <= k < |s| ==> s[k] == '\r' || s[k] == '\n')
    ensures 0 < j ==> s[j - 1] != '\r' && s[j - 1] != '\n'
  {
    if s == [] || (s[|s| - 1] != '\r' && s[|s| - 1] != '\n') {
      j := |s|;
    } else {
      j := TrimEolExactly(s[..|s| - 1]);
    }
  }

  /** The first line decides: `register` alone registers a phone, `connect:` and `data:` name an id,
      and any other line, `ping` included, is neither. */
  lemma DispatchExactly(line: string, id: string)
    ensures Dispatch(line) == RegisterLine <==> TrimEol(line) == "register"
    ensures Dispatch(line) == ConnectLine(id) <==> TrimEol(line) == "connect:" + id
    ensures Dispatch(line) == DataLine(id) <==> TrimEol(line) == "data:" + id
  {
    var l := TrimEol(line);
    assert l == "connect:" + id ==> l[0] == 'c' && l[..8] == "connect:" && l[8..] == id;
    assert l == "data:" + id ==> l[0] == 'd' && l[..5] == "data:" && l[5..] == id;
    assert HasPrefix(l, "connect:") ==> l == "connect:" + l[8..] && l[0] == 'c';
    assert HasPrefix(l, "data:") ==> l == "data:" + l[5..] && l[0] == 'd';
  }

  /** Ids the relay issues survive the trip. */
  lemma IssuedIdRoundTrip(k: nat)
    ensures Dispatch(DataRequest(ClientId(k))) == DataLine(ClientId(k))
    ensures Dispatch(DataRequest(PhoneId(k))) == DataLine(PhoneId(k))
  {
    DecDenotes(k);
    assert ClientId(k)[|ClientId(k)| - 1] == Dec(k)[|Dec(k)| - 1];
    assert PhoneId(k)[|PhoneId(k)| - 1] == Dec(k)[|Dec(k)| - 1];
    FirstLineRoundTrip(ClientId(k));
    FirstLineRoundTrip(PhoneId(k));
  }
}
