/** The SOCKS5 greeting and CONNECT request (sections 3 to 5 of RFC 1928) and the replies, as
    one grammar that all three parsers are checked against. */
module Socks5 {

  type Byte = b: int | 0 <= b < 256

  const VERSION: Byte := 5
  const CONNECT: Byte := 1
  const IPV4: Byte := 1
  const DOMAIN: Byte := 3
  const IPV6: Byte := 4

  /** The address as the bytes on the wire; how a host is printed from them is library code. */
  datatype Request = Request(atyp: Byte, addr: seq<Byte>, port: nat)

  datatype Outcome =
    | ShortGreeting                                // the stream ends inside the greeting
    | ShortRequest                                 // ... inside the 4 fixed request bytes
    | BadCommand
    | BadAddress                                   // unknown type, or the stream ends inside it
    | Connect(req: Request)

  /** How a handshake ends and, after a request, what is left of the stream. */
  datatype Decoded = Decoded(outcome: Outcome, rest: seq<Byte>)

  function Fails(o: Outcome): Decoded {
    Decoded(o, [])
  }

  predicate ValidRequest(r: Request) {
    && r.port < 0x1_0000
    && ((r.atyp == IPV4 && |r.addr| == 4) || (r.atyp == IPV6 && |r.addr| == 16) ||
        (r.atyp == DOMAIN && |r.addr| <= 255))
  }

  // ---- Encoding: what a client sends ----

  function EncodeGreeting(methods: seq<Byte>): seq<Byte>
    requires |methods| <= 255
  {
    [VERSION, |methods|] + methods
  }

  function PortOf(port: nat): seq<Byte>
    requires port < 0x1_0000
  {
    [port / 256, port % 256]
  }

  function EncodeAddress(r: Request): seq<Byte>
    requires ValidRequest(r)
  {
    (if r.atyp == DOMAIN then [|r.addr|] else []) + r.addr + PortOf(r.port)
  }

  function EncodeRequest(r: Request): seq<Byte>
    requires ValidRequest(r)
  {
    [VERSION, CONNECT, 0, r.atyp] + EncodeAddress(r)
  }

  // ---- Decoding: the grammar ----

  /** binary.BigEndian.Uint16 */
  function Port(hi: Byte, lo: Byte): nat {
    hi as nat * 256 + lo as nat
  }

  lemma PortBytes(hi: Byte, lo: Byte)
    ensures Port(hi, lo) / 256 == hi && Port(hi, lo) % 256 == lo && Port(hi, lo) < 0x1_0000
  {
  }

  function DecodeFields(atyp: Byte, s: seq<Byte>, len: nat): Decoded {
    if |s| < len + 2 then Fails(BadAddress)
    else Decoded(Connect(Request(atyp, s[..len], Port(s[len], s[len + 1]))), s[len + 2..])
  }

  function DecodeAddress(atyp: Byte, s: seq<Byte>): Decoded {
    if atyp == IPV4 then DecodeFields(atyp, s, 4)
    else if atyp == IPV6 then DecodeFields(atyp, s, 16)
    else if atyp == DOMAIN && s != [] then DecodeFields(atyp, s[1..], s[0])
    else Fails(BadAddress)
  }

  function DecodeRequest(s: seq<Byte>): Decoded {
    if |s| < 4 then Fails(ShortRequest)
    else if s[1] != CONNECT then Fails(BadCommand)
    else DecodeAddress(s[3], s[4..])
  }

  function Decode(s: seq<Byte>): Decoded {
    if |s| < 2 || |s| < 2 + s[1] as nat then Fails(ShortGreeting) else DecodeRequest(s[2 + s[1] as nat..])
  }

  // ---- Decoding undoes encoding ----

  lemma AddressRoundTrip(r: Request, rest: seq<Byte>)
    requires ValidRequest(r)
    ensures DecodeAddress(r.atyp, EncodeAddress(r) + rest) == Decoded(Connect(r), rest)
  {
    var s := r.addr + PortOf(r.port) + rest;
    var n := |r.addr|;
    assert s[..n] == r.addr && s[n + 2..] == rest;
    if r.atyp == DOMAIN {
      assert (EncodeAddress(r) + rest)[1..] == s;
    } else {
      assert EncodeAddress(r) + rest == s;
    }
  }

  lemma FieldsWereEncoded(atyp: Byte, t: seq<Byte>, len: nat)
    requires len + 2 <= |t|
    ensures var r := DecodeFields(atyp, t, len).outcome.req;
            && r.atyp == atyp && |r.addr| == len && r.port < 0x1_0000
            && t == r.addr + PortOf(r.port) + DecodeFields(atyp, t, len).rest
  {
    PortBytes(t[len], t[len + 1]);
    assert t == t[..len] + [t[len], t[len + 1]] + t[len + 2..];
  }

  lemma AddressWasEncoded(atyp: Byte, s: seq<Byte>)
    requires DecodeAddress(atyp, s).outcome.Connect?
    ensures var d := DecodeAddress(atyp, s);
            ValidRequest(d.outcome.req) && d.outcome.req.atyp == atyp
            && s == EncodeAddress(d.outcome.req) + d.rest
  {
    if atyp == DOMAIN {
      FieldsWereEncoded(atyp, s[1..], s[0]);
      var r, rest := DecodeAddress(atyp, s).outcome.req, DecodeAddress(atyp, s).rest;
      assert s == [s[0]] + (r.addr + PortOf(r.port) + rest);
      assert s == [s[0]] + r.addr + PortOf(r.port) + rest;
    } else {
      FieldsWereEncoded(atyp, s, if atyp == IPV4 then 4 else 16);
      assert EncodeAddress(DecodeAddress(atyp, s).outcome.req)
             == DecodeAddress(atyp, s).outcome.req.addr + PortOf(DecodeAddress(atyp, s).outcome.req.port);
    }
  }

  /** A Connect outcome says exactly what the address bytes were. */
  lemma AddressDecodesExactly(atyp: Byte, s: seq<Byte>, r: Request, rest: seq<Byte>)
    ensures DecodeAddress(atyp, s) == Decoded(Connect(r), rest) <==>
            ValidRequest(r) && r.atyp == atyp && s == EncodeAddress(r) + rest
  {
    if ValidRequest(r) && r.atyp == atyp && s == EncodeAddress(r) + rest {
      AddressRoundTrip(r, rest);
    }
    if DecodeAddress(atyp, s) == Decoded(Connect(r), rest) {
      AddressWasEncoded(atyp, s);
    }
  }

  /** For every method list, address and port, decoding the encoding gives the fields back and
      leaves what follows untouched. */
  lemma RoundTrip(methods: seq<Byte>, r: Request, rest: seq<Byte>)
    requires |methods| <= 255 && ValidRequest(r)
    ensures Decode(EncodeGreeting(methods) + EncodeRequest(r) + rest) == Decoded(Connect(r), rest)
  {
    var s := EncodeGreeting(methods) + EncodeRequest(r) + rest;
    var t := EncodeRequest(r) + rest;
    assert s[1] == |methods| && s[2 + |methods|..] == t;
    assert t[4..] == EncodeAddress(r) + rest;
    AddressRoundTrip(r, rest);
  }

  /** And conversely: a stream decodes to a request only if, up to the version and reserved
      bytes, which go unchecked, it is an encoding of it. */
  lemma DecodesExactly(s: seq<Byte>, r: Request, rest: seq<Byte>)
    ensures Decode(s) == Decoded(Connect(r), rest) <==>
            && ValidRequest(r) && 2 <= |s|
            && var g := 2 + s[1] as nat;
               && g + 4 <= |s| && s[g + 1] == CONNECT && s[g + 3] == r.atyp
               && s[g + 4..] == EncodeAddress(r) + rest
  {
    if 2 <= |s| && 2 + s[1] as nat <= |s| {
      var g := 2 + s[1] as nat;
      var t := s[g..];
      if 4 <= |t| {
        assert t[4..] == s[g + 4..];
        AddressDecodesExactly(t[3], t[4..], r, rest);
      }
    }
  }

  /** A decoded request accounts for every byte of the stream. */
  lemma RequestLength(s: seq<Byte>)
    requires DecodeRequest(s).outcome.Connect?
    ensures var o := DecodeRequest(s);
            ValidRequest(o.outcome.req) && |s| == 4 + |EncodeAddress(o.outcome.req)| + |o.rest|
  {
    var o := DecodeRequest(s);
    AddressDecodesExactly(s[3], s[4..], o.outcome.req, o.rest);
  }

  // ---- The grammar in the numbers of RFC 1928 ----

  /** A request for a domain name, byte by byte: the port is big-endian, what follows is left. */
  lemma NameOnTheWire(methods: seq<Byte>, name: seq<Byte>, hi: Byte, lo: Byte, rest: seq<Byte>)
    requires |methods| <= 255 && |name| <= 255
    ensures Decode([5, |methods|] + methods + ([5, 1, 0, 3, |name|] + (name + ([hi, lo] + rest))))
            == Decoded(Connect(Request(3, name, hi as nat * 256 + lo as nat)), rest)
  {
    var tail := name + ([hi, lo] + rest);
    var t := [5, 1, 0, 3, |name|] + tail;
    GreetingOff(methods, t);
    FieldsOff(3, name, hi, lo, rest);
    hide Decode, DecodeFields;
    assert t[4..] == [|name|] + tail && ([|name|] + tail)[1..] == tail;
  }

  /** And requests for the two kinds of numeric address. */
  lemma NumberOnTheWire(methods: seq<Byte>, atyp: Byte, addr: seq<Byte>, hi: Byte, lo: Byte, rest: seq<Byte>)
    requires |methods| <= 255 && ((atyp == 1 && |addr| == 4) || (atyp == 4 && |addr| == 16))
    ensures Decode([5, |methods|] + methods + ([5, 1, 0, atyp] + (addr + ([hi, lo] + rest))))
            == Decoded(Connect(Request(atyp, addr, hi as nat * 256 + lo as nat)), rest)
  {
    var tail := addr + ([hi, lo] + rest);
    var t := [5, 1, 0, atyp] + tail;
    GreetingOff(methods, t);
    FieldsOff(atyp, addr, hi, lo, rest);
    hide Decode, DecodeFields;
    assert t[4..] == tail;
  }

  lemma GreetingOff(methods: seq<Byte>, t: seq<Byte>)
    requires |methods| <= 255
    ensures Decode([5, |methods|] + methods + t) == DecodeRequest(t)
  {
    var s := [5, |methods|] + methods + t;
    assert s[1] == |methods| && s[2 + |methods|..] == t;
  }

  lemma FieldsOff(atyp: Byte, name: seq<Byte>, hi: Byte, lo: Byte, rest: seq<Byte>)
    ensures DecodeFields(atyp, name + ([hi, lo] + rest), |name|)
            == Decoded(Connect(Request(atyp, name, hi as nat * 256 + lo as nat)), rest)
  {
    var t := name + ([hi, lo] + rest);
    assert t[..|name|] == name && t[|name| + 2..] == rest;
  }

  /** The length of the address field, from its type and first byte. */
  predicate HasAddress(t: seq<Byte>)
    requires 4 <= |t|
  {
    || (t[3] == 1 && 10 <= |t|)
    || (t[3] == 4 && 22 <= |t|)
    || (t[3] == 3 && 5 <= |t| && 7 + t[4] as nat <= |t|)
  }

  /** How a stream ends the handshake, by its bytes. */
  lemma OutcomeExactly(s: seq<Byte>)
    ensures Decode(s).outcome == ShortGreeting <==> |s| < 2 || |s| < 2 + s[1] as nat
    ensures 2 <= |s| && 2 + s[1] as nat <= |s| ==>
              var t := s[2 + s[1] as nat..];
              && (Decode(s).outcome == ShortRequest <==> |t| < 4)
              && (Decode(s).outcome == BadCommand <==> 4 <= |t| && t[1] != 1)
              && (Decode(s).outcome == BadAddress <==> 4 <= |t| && t[1] == 1 && !HasAddress(t))
              && (Decode(s).outcome.Connect? <==> 4 <= |t| && t[1] == 1 && HasAddress(t))
  {
  }

  // ---- Replies (sections 3 and 6 of RFC 1928) ----

  const METHOD_REPLY: seq<Byte> := [VERSION, 0]

  function FinalReply(code: Byte): seq<Byte> {
    [VERSION, code, 0, IPV4, 0, 0, 0, 0, 0, 0]
  }

  const BAD_COMMAND: Byte := 7
  const BAD_ADDRESS: Byte := 8

  /** The reply to a request that ends this way; only the relay answers an address it cannot
      read. */
  function Refusal(o: Outcome, answersBadAddress: bool): seq<Byte> {
    match o
    case BadCommand => FinalReply(BAD_COMMAND)
    case BadAddress => if answersBadAddress then FinalReply(BAD_ADDRESS) else []
    case _ => []
  }

  /** All that a handshake that ends this way has been answered. */
  function Replies(o: Outcome, answersBadAddress: bool): seq<Byte> {
    if o.ShortGreeting? then [] else METHOD_REPLY + Refusal(o, answersBadAddress)
  }

  /** The part of `p` a connection with this much room accepts. */
  function Taken(p: seq<Byte>, room: nat): seq<Byte> {
    p[..if |p| <= room then |p| else room]
  }

  /** All that is answered, byte by byte: nothing to an unfinished greeting, the choice of no
      authentication to any other; then 7 to a refused command and, if it is answered, 8 to an
      address that cannot be read. */
  lemma RepliesExactly(o: Outcome, answersBadAddress: bool)
    ensures Replies(o, answersBadAddress)
            == match o
               case ShortGreeting => []
               case ShortRequest => [5, 0]
               case BadCommand => [5, 0, 5, 7, 0, 1, 0, 0, 0, 0, 0, 0]
               case BadAddress => if answersBadAddress then [5, 0, 5, 8, 0, 1, 0, 0, 0, 0, 0, 0] else [5, 0]
               case Connect(_) => [5, 0]
  {
  }
}
