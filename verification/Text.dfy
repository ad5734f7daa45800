/** The string library the relay and the phone lean on: decimal printing, line splitting,
    trimming, cutting at a separator and joining host and port.  Go strings are byte
    strings; a `char` stands for one byte. */
module Text {

  datatype Option<+T> = None | Some(value: T)

  // ---- Decimal numerals: fmt.Sprintf("%d", n) ----

  function Digit(d: nat): char
    requires d < 10
  {
    '0' + d as char
  }

  function Dec(n: nat): string {
    if n < 10 then [Digit(n)] else Dec(n / 10) + [Digit(n % 10)]
  }

  predicate IsDigit(c: char) {
    '0' <= c <= '9'
  }

  /** What a numeral denotes; the inverse that Dec is checked against. */
  function Value(s: string): int {
    if s == [] then 0 else Value(s[..|s| - 1]) * 10 + (s[|s| - 1] as int - '0' as int)
  }

  /** A decimal numeral as people write it: digits only, and no leading zero but in "0". */
  predicate IsNumeral(s: string) {
    s != [] && (forall i :: 0 <= i < |s| ==> '0' <= s[i] <= '9') && (s[0] == '0' ==> |s| == 1)
  }

  lemma {:induction false} DecDenotes(n: nat)
    ensures Dec(n) != []
    ensures forall i :: 0 <= i < |Dec(n)| ==> IsDigit(Dec(n)[i])
    ensures IsNumeral(Dec(n)) && (0 < n ==> Dec(n)[0] != '0')
    ensures Value(Dec(n)) == n
  {
    if n < 10 {
      assert Dec(n)[..0] == [];
    } else {
      DecDenotes(n / 10);
      assert Dec(n)[..|Dec(n)| - 1] == Dec(n / 10);
    }
  }

  lemma {:induction false} NumeralsAreDec(s: string)
    requires IsNumeral(s)
    ensures 0 <= Value(s) && (s[0] != '0' ==> 0 < Value(s)) && s == Dec(Value(s))
  {
    if |s| == 1 {
      assert s[..0] == [];
    } else {
      NumeralsAreDec(s[..|s| - 1]);
    }
  }

  /** Printing gives the one numeral of the number. */
  lemma DecExactly(s: string, n: nat)
    ensures s == Dec(n) <==> IsNumeral(s) && Value(s) == n
  {
    DecDenotes(n);
    if IsNumeral(s) {
      NumeralsAreDec(s);
    }
  }

  lemma DecInjective(m: nat, n: nat)
    requires Dec(m) == Dec(n)
    ensures m == n
  {
    DecDenotes(m);
    DecDenotes(n);
  }

  // ---- Searching ----

  lemma Assoc<T>(a: seq<T>, b: seq<T>, c: seq<T>)
    ensures (a + b) + c == a + (b + c)
  {
  }

  /** The first position of `c` in `s`, or |s| when it does not occur. */
  function IndexOf<T(==)>(s: seq<T>, c: T): (i: nat)
    ensures i <= |s|
    ensures i < |s| ==> s[i] == c
    ensures c !in s[..i]
    ensures i == |s| <==> c !in s
  {
    if s == [] then 0
    else if s[0] == c then 0
    else
      var i := 1 + IndexOf(s[1..], c);
      assert s[..i] == [s[0]] + s[1..][..i - 1];
      i
  }

  lemma IndexOfUnique<T>(s: seq<T>, c: T, i: nat)
    requires i < |s| && s[i] == c && c !in s[..i]
    ensures IndexOf(s, c) == i
  {
    var j := IndexOf(s, c);
    assert forall k :: 0 <= k < i ==> s[..i][k] == s[k];
    assert forall k :: 0 <= k < j ==> s[..j][k] == s[k];
  }

  predicate HasPrefix(s: string, p: string) {
    p <= s
  }

  // ---- strings.TrimSpace ----

  predicate IsSpace(c: char) {
    c == ' ' || 9 <= c as int <= 13
  }

  function TrimLeft(s: string): string {
    if s != [] && IsSpace(s[0]) then TrimLeft(s[1..]) else s
  }

  function TrimRight(s: string): string {
    if s != [] && IsSpace(s[|s| - 1]) then TrimRight(s[..|s| - 1]) else s
  }

  function TrimSpace(s: string): string {
    TrimRight(TrimLeft(s))
  }

  /** Trimming the right end cuts no deeper than the last character that is not white space, and
      leaves none there. */
  lemma {:induction false} TrimRightKeeps(s: string, n: nat)
    requires n < |s| && !IsSpace(s[n])
    ensures n < |TrimRight(s)| && TrimRight(s) <= s && !IsSpace(TrimRight(s)[|TrimRight(s)| - 1])
  {
    if !IsSpace(s[|s| - 1]) {
    } else {
      TrimRightKeeps(s[..|s| - 1], n);
    }
  }

  /** A line whose text neither starts nor ends in white space loses only its newline. */
  lemma TrimLine(text: string)
    requires text != [] && !IsSpace(text[0]) && !IsSpace(text[|text| - 1])
    ensures TrimSpace(text + "\n") == text
  {
    var line := text + "\n";
    assert TrimLeft(line) == line;
    assert line[..|line| - 1] == text;
    assert TrimRight(line) == TrimRight(text);
  }

  /** White space, character by character: blank, tab, newline, vertical tab, form feed, return. */
  predicate IsWhite(c: char) {
    c == ' ' || c == '\t' || c == '\n' || c == 11 as char || c == 12 as char || c == '\r'
  }

  /** `r` is `s` less `i` characters of white space in front and the ones from `j` behind. */
  predicate Trimmed(s: string, i: nat, j: nat, r: string) {
    && i <= j <= |s| && r == s[i..j]
    && (forall k :: 0 <= k < i ==> IsWhite(s[k])) && (forall k :: j <= k < |s| ==> IsWhite(s[k]))
    && (r != [] ==> !IsWhite(r[0]) && !IsWhite(r[|r| - 1]))
  }

  lemma {:induction false} TrimLeftExactly(s: string) returns (i: nat)
    ensures i <= |s| && TrimLeft(s) == s[i..] && (forall k :: 0 <= k < i ==> IsWhite(s[k]))
    ensures i < |s| ==> !IsWhite(s[i])
  {
    if s == [] || !IsSpace(s[0]) {
      i := 0;
    } else {
      var n := TrimLeftExactly(s[1..]);
      i := n + 1;
      assert forall k :: 0 < k < i ==> s[k] == s[1..][k - 1];
    }
  }

  lemma {:induction false} TrimRightExactly(s: string) returns (j: nat)
    ensures j <= |s| && TrimRight(s) == s[..j] && (forall k :: j <= k < |s| ==> IsWhite(s[k]))
    ensures 0 < j ==> !IsWhite(s[j - 1])
  {
    if s == [] || !IsSpace(s[|s| - 1]) {
      j := |s|;
    } else {
      j := TrimRightExactly(s[..|s| - 1]);
    }
  }

  /** Trimming takes off all white space at both ends and nothing else. */
  lemma TrimSpaceExactly(s: string) returns (i: nat, j: nat)
    ensures Trimmed(s, i, j, TrimSpace(s))
  {
    i := TrimLeftExactly(s);
    var n := TrimRightExactly(s[i..]);
    j := i + n;
    assert forall k :: j <= k < |s| ==> s[k] == s[i..][k - i];
  }

  // ---- Lines of a byte stream ----

  /** The newline-terminated lines of `s`, each with its newline; an unfinished last line is dropped. */
  function LinesOf(s: string): seq<string>
    decreases |s|
  {
    var i := IndexOf(s, '\n');
    if i == |s| then [] else [s[..i + 1]] + LinesOf(s[i + 1..])
  }

  predicate OneLine(s: string) {
    s != [] && s[|s| - 1] == '\n' && '\n' !in s[..|s| - 1]
  }

  lemma LinesOfCons(line: string, rest: string)
    requires OneLine(line)
    ensures LinesOf(line + rest) == [line] + LinesOf(rest)
  {
    var s := line + rest;
    assert s[..|line| - 1] == line[..|line| - 1];
    IndexOfUnique(s, '\n', |line| - 1);
    assert s[..|line|] == line && s[|line|..] == rest;
  }

  lemma FirstLine(s: string, i: nat)
    requires i < |s| && s[i] == '\n' && '\n' !in s[..i]
    ensures OneLine(s[..i + 1]) && s == s[..i + 1] + s[i + 1..]
  {
    var line := s[..i + 1];
    assert line[|line| - 1] == '\n';
    assert line[..|line| - 1] == s[..i];
  }

  /** Whatever part of a stream has arrived, the lines seen so far are the stream's first lines. */
  lemma {:induction false} LinesOfPrefix(seen: string, more: string)
    ensures LinesOf(seen) <= LinesOf(seen + more)
    decreases |seen|
  {
    var i := IndexOf(seen, '\n');
    if i == |seen| {
    } else {
      FirstLine(seen, i);
      var line, rest := seen[..i + 1], seen[i + 1..];
      assert seen + more == line + (rest + more);
      LinesOfCons(line, rest);
      LinesOfCons(line, rest + more);
      LinesOfPrefix(rest, more);
    }
  }

  lemma PrefixHasFirstLines(s: string, n: nat)
    requires n <= |s|
    ensures LinesOf(s[..n]) <= LinesOf(s)
  {
    hide LinesOf;
    LinesOfPrefix(s[..n], s[n..]);
    assert s[..n] + s[n..] == s;
  }

  // ---- net.JoinHostPort ----

  /** A host with a colon in it is taken for an IPv6 literal and bracketed. */
  function JoinHostPort(host: string, port: nat): string {
    if ':' in host then "[" + host + "]:" + Dec(port) else host + ":" + Dec(port)
  }

  lemma JoinHostPortShape(host: string, port: nat)
    ensures var t := JoinHostPort(host, port);
            t != [] && IsDigit(t[|t| - 1]) && ('\n' in t <==> '\n' in host)
  {
    var d, t := Dec(port), JoinHostPort(host, port);
    DecDenotes(port);
    assert t[|t| - 1] == d[|d| - 1];
    assert '\n' !in d;
  }

  /** A target for this host and port: what stands behind its last colon is the numeral of the port,
      and what stands before it is the host, in brackets exactly when the host has a colon. */
  ghost predicate ReadsAs(target: string, host: string, port: nat) {
    exists i: nat :: ColonAt(target, i) && ReadsAt(target, i, host, port)
  }

  predicate ColonAt(target: string, i: nat) {
    i < |target| && target[i] == ':' && ':' !in target[i + 1..]
  }

  predicate ReadsAt(target: string, i: nat, host: string, port: nat)
    requires i < |target|
  {
    && IsNumeral(target[i + 1..]) && Value(target[i + 1..]) == port
    && target[..i] == if ':' in host then "[" + host + "]" else host
  }

  lemma TargetReadsBack(host: string, port: nat)
    ensures ReadsAs(JoinHostPort(host, port), host, port)
  {
    var front := if ':' in host then "[" + host + "]" else host;
    var target := JoinHostPort(host, port);
    DecDenotes(port);
    assert target == front + ":" + Dec(port);
    assert target[|front| + 1..] == Dec(port) && target[..|front|] == front;
    assert ColonAt(target, |front|) && ReadsAt(target, |front|, host, port);
  }

  lemma FrontNames(front: string, host: string)
    requires front == if ':' in host then "[" + host + "]" else host
    ensures host == if ':' in front then front[1..|front| - 1] else front
  {
    if ':' in host {
      var i :| 0 <= i < |host| && host[i] == ':';
      assert front[i + 1] == ':';
    }
  }

  /** A target names one host and one port. */
  lemma ReadsAsOne(target: string, host: string, port: nat, other: string, another: nat)
    requires ReadsAs(target, host, port) && ReadsAs(target, other, another)
    ensures host == other && port == another
  {
    var i: nat :| ColonAt(target, i) && ReadsAt(target, i, host, port);
    var j: nat :| ColonAt(target, j) && ReadsAt(target, j, other, another);
    OneLastColon(target, i, j);
    FrontNames(target[..i], host);
    FrontNames(target[..i], other);
  }

  lemma OneLastColon(target: string, i: nat, j: nat)
    requires ColonAt(target, i) && ColonAt(target, j)
    ensures i == j
  {
    assert forall k :: i < k < |target| ==> target[k] == target[i + 1..][k - i - 1];
    assert forall k :: j < k < |target| ==> target[k] == target[j + 1..][k - j - 1];
  }
}
