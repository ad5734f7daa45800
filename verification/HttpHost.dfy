/** Finding the target host in the first bytes of an HTTP request. */
module HttpHost {
  import opened Text

  // ---- strings.Split(s, "\r\n") ----

  /** A line break starts at `i`. */
  predicate BreakAt(s: string, i: nat) {
    i + 1 < |s| && s[i] == '\r' && s[i + 1] == '\n'
  }

  /** The first line break, or |s| when there is none. */
  function FirstBreak(s: string, from: nat): (i: nat)
    requires from <= |s|
    ensures from <= i <= |s|
    ensures i < |s| ==> BreakAt(s, i)
    ensures forall j :: from <= j < i ==> !BreakAt(s, j)
    decreases |s| - from
  {
    if from == |s| || BreakAt(s, from) then from else FirstBreak(s, from + 1)
  }

  function Lines(s: string): seq<string>
    decreases |s|
  {
    var i := FirstBreak(s, 0);
    if i == |s| then [s] else [s[..i]] + Lines(s[i + 2..])
  }

  function Join(lines: seq<string>): string
    requires lines != []
  {
    if |lines| == 1 then lines[0] else lines[0] + "\r\n" + Join(lines[1..])
  }

  predicate NoBreak(line: string) {
    forall i :: 0 <= i < |line| ==> !BreakAt(line, i)
  }

  lemma FirstBreakAfter(line: string, rest: string)
    requires NoBreak(line)
    ensures FirstBreak(line + "\r\n" + rest, 0) == |line|
  {
    var s := line + "\r\n" + rest;
    assert BreakAt(s, |line|);
    forall j | 0 <= j < |line| ensures !BreakAt(s, j) {
      assert !BreakAt(line, j);
    }
  }

  /** Splitting recovers the lines a request was serialised from. */
  lemma {:induction false} SplitJoin(lines: seq<string>)
    requires lines != [] && forall l :: l in lines ==> NoBreak(l)
    ensures Lines(Join(lines)) == lines
  {
    if |lines| == 1 {
      assert NoBreak(lines[0]);
      assert FirstBreak(lines[0], 0) == |lines[0]|;
    } else {
      FirstBreakAfter(lines[0], Join(lines[1..]));
      assert Join(lines)[|lines[0]| + 2..] == Join(lines[1..]);
      assert Join(lines)[..|lines[0]|] == lines[0];
      SplitJoin(lines[1..]);
    }
  }

  /** And loses nothing: any data is its lines joined. */
  lemma {:induction false} JoinSplit(s: string)
    ensures Lines(s) != [] && Join(Lines(s)) == s
    decreases |s|
  {
    var i := FirstBreak(s, 0);
    if i == |s| {
    } else {
      JoinSplit(s[i + 2..]);
      assert s == s[..i] + "\r\n" + s[i + 2..];
      assert Lines(s)[1..] == Lines(s[i + 2..]);
    }
  }

  // ---- The Host header ----

  function Lower(c: char): char {
    if 'A' <= c <= 'Z' then (c as int + 32) as char else c
  }

  function LowerAll(s: string): string {
    seq(|s|, i requires 0 <= i < |s| => Lower(s[i]))
  }

  /** A Host line with a value: the field name in any case (section 5.1 of RFC 9110). */
  predicate IsHost(line: string) {
    6 < |line| && LowerAll(line[..6]) == "host: "
  }

  /** A character is this letter, small or capital. */
  predicate Either(c: char, small: char, capital: char) {
    c == small || c == capital
  }

  /** A Host line, letter by letter. */
  lemma IsHostExactly(line: string)
    ensures IsHost(line) <==>
            && 6 < |line|
            && Either(line[0], 'h', 'H') && Either(line[1], 'o', 'O') && Either(line[2], 's', 'S')
            && Either(line[3], 't', 'T') && line[4] == ':' && line[5] == ' '
  {
    if 6 < |line| {
      var low := LowerAll(line[..6]);
      assert low == [Lower(line[0]), Lower(line[1]), Lower(line[2]), Lower(line[3]), Lower(line[4]), Lower(line[5])];
    }
  }

  /** `host` is the value of the first Host line, or empty when there is none. */
  ghost predicate FirstHost(lines: seq<string>, host: string) {
    if host == "" then forall i :: 0 <= i < |lines| ==> !IsHost(lines[i])
    else exists i ::
      && 0 <= i < |lines| && IsHost(lines[i]) && host == lines[i][6..]
      && forall j :: 0 <= j < i ==> !IsHost(lines[j])
  }

  /** extractHTTPHost */
  method ExtractHTTPHost(data: string) returns (host: string)
    ensures FirstHost(Lines(data), host)
  {
    var lines := Lines(data);
    for k := 0 to |lines|
      invariant forall j :: 0 <= j < k ==> !IsHost(lines[j])
    {
      if |lines[k]| > 6 && LowerAll(lines[k][..6]) == "host: " {
        assert IsHost(lines[k]);
        return lines[k][6..];
      }
    }
    return "";
  }

  /** For every request made of a request line and header lines, the extracted host is the value
      of the first Host line, and empty exactly when no line is one. */
  method HostOfRequest(lines: seq<string>) returns (host: string)
    requires lines != [] && forall l :: l in lines ==> NoBreak(l)
    ensures FirstHost(lines, host)
    ensures host == "" <==> forall l :: l in lines ==> !IsHost(l)
  {
    SplitJoin(lines);
    host := ExtractHTTPHost(Join(lines));
  }

  // ---- The CONNECT target ----

  /** extractCONNECTHost: the text between the first two spaces. */
  function ExtractCONNECTHost(data: string): string {
    var i := IndexOf(data, ' ');
    if i == |data| then ""
    else
      var rest := data[i + 1..];
      var j := IndexOf(rest, ' ');
      if j == |rest| then "" else rest[..j]
  }

  /** `target` stands between the first space, at `i`, and the second. */
  predicate Between(data: string, i: nat, target: string) {
    && i + 1 + |target| < |data|
    && ' ' !in data[..i] && data[i] == ' '
    && data[i + 1..i + 1 + |target|] == target && ' ' !in target && data[i + 1 + |target|] == ' '
  }

  lemma TargetIsBetween(data: string)
    requires ExtractCONNECTHost(data) != ""
    ensures Between(data, IndexOf(data, ' '), ExtractCONNECTHost(data))
  {
    hide IndexOf;
    var i := IndexOf(data, ' ');
    var j := IndexOf(data[i + 1..], ' ');
    SecondWord(data, i, j);
  }

  lemma SecondWord(data: string, i: nat, j: nat)
    requires i < |data| && ' ' !in data[..i] && data[i] == ' '
    requires j < |data[i + 1..]| && ' ' !in data[i + 1..][..j] && data[i + 1..][j] == ' '
    ensures Between(data, i, data[i + 1..][..j])
  {
  }

  /** In particular a request line of method, target and version gives its target. */
  lemma BetweenIsTarget(data: string, i: nat, target: string)
    requires Between(data, i, target)
    ensures ExtractCONNECTHost(data) == target
  {
    IndexOfUnique(data, ' ', i);
    var rest := data[i + 1..];
    assert rest[..|target|] == target;
    IndexOfUnique(rest, ' ', |target|);
  }

  /** Whatever the bytes, a nonempty result is exactly the text between the first two spaces. */
  lemma ConnectTargetExactly(data: string, target: string)
    requires target != ""
    ensures ExtractCONNECTHost(data) == target <==> exists i: nat :: Between(data, i, target)
  {
    hide ExtractCONNECTHost, Between;
    if ExtractCONNECTHost(data) == target {
      TargetIsBetween(data);
    }
    if i: nat :| Between(data, i, target) {
      BetweenIsTarget(data, i, target);
    }
  }
}
