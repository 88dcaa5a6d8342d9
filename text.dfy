/** The Python string operations the program relies on: `str.strip()`,
    `str.splitlines()`, `str.ljust(width)` and `str(n)` for a natural number.
    Characters are code points, as in Python 3. */
module Text {

  /** Python's `str.isspace()` for one character. */
  predicate IsSpace(c: char) {
    c == '\t' || c == '\n' || c == '\U{0B}' || c == '\U{0C}' || c == '\r'
    || ('\U{1C}' <= c <= '\U{1F}') || c == ' ' || c == '\U{85}' || c == '\U{A0}'
    || c == '\U{1680}' || ('\U{2000}' <= c <= '\U{200A}') || c == '\U{2028}'
    || c == '\U{2029}' || c == '\U{202F}' || c == '\U{205F}' || c == '\U{3000}'
  }

  predicate AllSpace(s: string) {
    forall i :: 0 <= i < |s| ==> IsSpace(s[i])
  }

  /** `str.lstrip()`. */
  function TrimStart(s: string): string
    decreases |s|
  {
    if s != [] && IsSpace(s[0]) then TrimStart(s[1..]) else s
  }

  /** `str.rstrip()`. */
  function TrimEnd(s: string): string
    decreases |s|
  {
    if s != [] && IsSpace(s[|s| - 1]) then TrimEnd(s[..|s| - 1]) else s
  }

  /** `lstrip` drops the leading whitespace, nothing else: what it keeps is a
      suffix that starts with a non-space character. */
  lemma {:induction false} TrimStartSpec(s: string)
    ensures var r := TrimStart(s);
      && |r| <= |s| && r == s[|s| - |r|..]
      && AllSpace(s[..|s| - |r|])
      && (r != [] ==> !IsSpace(r[0]))
    decreases |s|
  {
    if s != [] && IsSpace(s[0]) {
      TrimStartSpec(s[1..]);
      var r := TrimStart(s);
      assert s[1..][|s| - 1 - |r|..] == s[|s| - |r|..];
      assert s[..|s| - |r|] == [s[0]] + s[1..][..|s| - 1 - |r|];
    }
  }

  /** `rstrip` drops the trailing whitespace, nothing else: what it keeps is a
      prefix that ends with a non-space character. */
  lemma {:induction false} TrimEndSpec(s: string)
    ensures var r := TrimEnd(s);
      && |r| <= |s| && r == s[..|r|]
      && AllSpace(s[|r|..])
      && (r != [] ==> !IsSpace(r[|r| - 1]))
    decreases |s|
  {
    if s != [] && IsSpace(s[|s| - 1]) {
      TrimEndSpec(s[..|s| - 1]);
      var r := TrimEnd(s);
      assert s[..|s| - 1][..|r|] == s[..|r|];
      assert s[|r|..] == s[..|s| - 1][|r|..] + [s[|s| - 1]];
    }
  }

  /** `str.strip()`. */
  function Strip(s: string): string {
    TrimEnd(TrimStart(s))
  }

  /** Strip keeps one contiguous slice of its input, which starts and ends
      with a non-space character, and removes only whitespace around it. */
  lemma StripIsSlice(s: string) returns (start: nat)
    ensures start + |Strip(s)| <= |s|
    ensures Strip(s) == s[start..start + |Strip(s)|]
    ensures AllSpace(s[..start]) && AllSpace(s[start + |Strip(s)|..])
    ensures Strip(s) != [] ==> !IsSpace(Strip(s)[0]) && !IsSpace(Strip(s)[|Strip(s)| - 1])
  {
    var t := TrimStart(s);
    var r := TrimEnd(t);
    TrimStartSpec(s);
    TrimEndSpec(t);
    start := |s| - |t|;
    assert r == t[..|r|];
    assert t == s[start..];
    assert s[start + |r|..] == t[|r|..];
    if r != [] {
      assert r[0] == t[0];
    }
  }

  /** The stripped text is empty exactly when the input is all whitespace. */
  lemma StripEmptyIff(s: string)
    ensures Strip(s) == [] <==> AllSpace(s)
  {
    var start := StripIsSlice(s);
    if Strip(s) == [] {
      assert s == s[..start] + s[start..];
      assert s[start..] == s[start + |Strip(s)|..];
    } else {
      assert !IsSpace(s[start]) by { assert s[start] == Strip(s)[0]; }
    }
  }

  lemma StripIdempotent(s: string)
    ensures Strip(Strip(s)) == Strip(s)
  {
    var r := Strip(s);
    var _ := StripIsSlice(s);
    if r != [] {
      assert TrimStart(r) == r;
      assert TrimEnd(r) == r;
    }
  }

  /** The characters at which Python's `str.splitlines()` breaks a line. */
  predicate IsLineBreak(c: char) {
    c == '\n' || c == '\r' || c == '\U{0B}' || c == '\U{0C}' || c == '\U{1C}'
    || c == '\U{1D}' || c == '\U{1E}' || c == '\U{85}' || c == '\U{2028}' || c == '\U{2029}'
  }

  predicate NoLineBreak(s: string) {
    forall i :: 0 <= i < |s| ==> !IsLineBreak(s[i])
  }

  /** Index of the first line break in `s`, or `|s|` when there is none. */
  function FirstBreak(s: string): (k: nat)
    ensures k <= |s|
    ensures NoLineBreak(s[..k])
    ensures k < |s| ==> IsLineBreak(s[k])
  {
    if s == [] || IsLineBreak(s[0]) then 0
    else
      var k := 1 + FirstBreak(s[1..]);
      assert s[..k] == [s[0]] + s[1..][..k - 1];
      k
  }

  /** `str.splitlines()`: the lines of `s` without their terminators; "\r\n"
      is one terminator, and a final terminator opens no empty last line. */
  function SplitLines(s: string): (lines: seq<string>)
    ensures s == [] <==> lines == []
    ensures |lines| <= |s|
    ensures forall i :: 0 <= i < |lines| ==> NoLineBreak(lines[i])
    decreases |s|
  {
    if s == [] then []
    else
      var k := FirstBreak(s);
      if k == |s| then [s]
      else
        var next := if s[k] == '\r' && k + 1 < |s| && s[k + 1] == '\n' then k + 2 else k + 1;
        [s[..k]] + SplitLines(s[next..])
  }

  /** Each line followed by "\n": the text whose lines `SplitLines` recovers. */
  function Terminated(lines: seq<string>): string {
    if lines == [] then [] else lines[0] + "\n" + Terminated(lines[1..])
  }

  lemma {:induction false} FirstBreakOfTerminated(line: string, rest: string)
    requires NoLineBreak(line)
    ensures FirstBreak(line + "\n" + rest) == |line|
    decreases |line|
  {
    var s := line + "\n" + rest;
    if line != [] {
      assert s[1..] == line[1..] + "\n" + rest;
      FirstBreakOfTerminated(line[1..], rest);
    }
  }

  /** Round trip: splitting newline-terminated lines gives those lines back. */
  lemma {:induction false} SplitTerminated(lines: seq<string>)
    requires forall i :: 0 <= i < |lines| ==> NoLineBreak(lines[i])
    ensures SplitLines(Terminated(lines)) == lines
    decreases |lines|
  {
    if lines != [] {
      var l := lines[0];
      var rest := Terminated(lines[1..]);
      var s := l + "\n" + rest;
      FirstBreakOfTerminated(l, rest);
      assert s[|l|] == '\n';
      assert s[..|l|] == l;
      assert s[|l| + 1..] == rest;
      SplitTerminated(lines[1..]);
    }
  }

  /** The lines with "\n" between them and none after the last. */
  function Joined(lines: seq<string>): string {
    if lines == [] then []
    else if |lines| == 1 then lines[0]
    else lines[0] + "\n" + Joined(lines[1..])
  }

  lemma {:induction false} TerminatedJoined(lines: seq<string>)
    requires lines != []
    ensures Terminated(lines) == Joined(lines) + "\n"
    decreases |lines|
  {
    if |lines| == 1 {
      assert lines[1..] == [];
    } else {
      TerminatedJoined(lines[1..]);
    }
  }

  /** The joined text starts with the first line's first character and ends
      with the last line's last character. */
  lemma {:induction false} JoinedEnds(lines: seq<string>)
    requires lines != [] && lines[0] != [] && lines[|lines| - 1] != []
    ensures var j := Joined(lines);
      && j != []
      && j[0] == lines[0][0]
      && j[|j| - 1] == lines[|lines| - 1][|lines[|lines| - 1]| - 1]
  {
    JoinedEndsTail(lines);
  }

  /** The joined text of lines whose last one is non-empty ends with that
      line's last character. */
  lemma {:induction false} JoinedEndsTail(lines: seq<string>)
    requires lines != [] && lines[|lines| - 1] != []
    ensures var j := Joined(lines);
      && j != []
      && j[|j| - 1] == lines[|lines| - 1][|lines[|lines| - 1]| - 1]
    decreases |lines|
  {
    if |lines| > 1 {
      var rest := lines[1..];
      JoinedEndsTail(rest);
      assert rest[|rest| - 1] == lines[|lines| - 1];
    }
  }

  /** Splitting lines joined by "\n" gives them back, as long as the last
      one is not empty (an empty last line leaves no trace in the text). */
  lemma {:induction false} SplitJoined(lines: seq<string>)
    requires lines != [] && lines[|lines| - 1] != []
    requires forall i :: 0 <= i < |lines| ==> NoLineBreak(lines[i])
    ensures SplitLines(Joined(lines)) == lines
    decreases |lines|
  {
    var l := lines[0];
    if |lines| == 1 {
      var k := FirstBreak(l);
      assert k == |l|;
    } else {
      var tail := lines[1..];
      var rest := Joined(tail);
      var s := Joined(lines);
      assert s == l + "\n" + rest;
      FirstBreakOfTerminated(l, rest);
      assert s[|l|] == '\n';
      assert s[..|l|] == l;
      assert s[|l| + 1..] == rest;
      assert forall i :: 0 <= i < |tail| ==> NoLineBreak(tail[i]) by {
        forall i | 0 <= i < |tail| ensures NoLineBreak(tail[i]) {
          assert tail[i] == lines[i + 1];
        }
      }
      assert tail[|tail| - 1] == lines[|lines| - 1];
      SplitJoined(tail);
    }
  }

  /** Text in the form `docker images --format '{{json .}}'` prints, one
      record per line, each line ending in "\n", the first starting and the
      last ending with a non-space character: `strip().splitlines()` gives
      back exactly those lines, in order. */
  lemma StripSplitTerminated(lines: seq<string>)
    requires forall i :: 0 <= i < |lines| ==> NoLineBreak(lines[i])
    requires lines != [] ==> lines[0] != [] && !IsSpace(lines[0][0])
    requires lines != [] ==> lines[|lines| - 1] != [] && !IsSpace(lines[|lines| - 1][|lines[|lines| - 1]| - 1])
    ensures Strip(Terminated(lines)) == Joined(lines)
    ensures SplitLines(Strip(Terminated(lines))) == lines
  {
    if lines != [] {
      var j := Joined(lines);
      var t := Terminated(lines);
      TerminatedJoined(lines);
      JoinedEnds(lines);
      assert t[0] == j[0];
      assert TrimStart(t) == t;
      assert t[..|t| - 1] == j;
      assert TrimEnd(t) == TrimEnd(j);
      SplitJoined(lines);
    }
  }

  /** `str.ljust(width)`: pads on the right with spaces up to `width`
      characters and never truncates. */
  function LeftJustify(s: string, width: nat): (r: string)
    ensures |r| == if |s| < width then width else |s|
    ensures r[..|s|] == s
    ensures forall i :: |s| <= i < |r| ==> r[i] == ' '
    decreases width - |s|
  {
    if |s| < width then
      var r := LeftJustify(s + " ", width);
      assert r[..|s|] == r[..|s| + 1][..|s|];
      r
    else s
  }

  function DigitChar(d: nat): (c: char)
    requires d < 10
    ensures '0' <= c <= '9'
  {
    "0123456789"[d]
  }

  function DigitValue(c: char): nat {
    if '0' <= c <= '9' then (c as int - '0' as int) as nat else 0
  }

  /** `str(n)` for a natural number. */
  function NatToString(n: nat): string {
    if n < 10 then [DigitChar(n)] else NatToString(n / 10) + [DigitChar(n % 10)]
  }

  /** `str(n)` is a non-empty string of decimal digits with no leading zero. */
  lemma {:induction false} NatToStringDigits(n: nat)
    ensures var r := NatToString(n);
      && |r| >= 1
      && (forall i :: 0 <= i < |r| ==> '0' <= r[i] <= '9')
      && (r[0] == '0' ==> n == 0 && r == "0")
  {
    if n >= 10 {
      NatToStringDigits(n / 10);
      var r := NatToString(n);
      assert r[0] == NatToString(n / 10)[0];
    }
  }

  /** The number a string of decimal digits denotes. */
  function DecimalValue(s: string): nat {
    if s == [] then 0 else DecimalValue(s[..|s| - 1]) * 10 + DigitValue(s[|s| - 1])
  }

  lemma {:induction false} DecimalRoundTrip(n: nat)
    ensures DecimalValue(NatToString(n)) == n
  {
    var r := NatToString(n);
    if n < 10 {
      assert DigitValue(DigitChar(n)) == n;
    } else {
      DecimalRoundTrip(n / 10);
      assert r[..|r| - 1] == NatToString(n / 10);
      assert DigitValue(DigitChar(n % 10)) == n % 10;
    }
  }
}
