/** The Python string operations the broker relies on. */
module Text {

  /** text.removeprefix(prefix) */
  function RemovePrefix(text: string, prefix: string): string {
    if prefix <= text then text[|prefix|..] else text
  }

  /** str.splitlines boundaries. */
  predicate IsLineBreak(c: char) {
    || '\n' <= c <= '\r'
    || '\U{1C}' <= c <= '\U{1E}'
    || c == '\U{85}' || c == '\U{2028}' || c == '\U{2029}'
  }

  /** str.isspace */
  predicate IsSpace(c: char) {
    || '\t' <= c <= '\r'
    || '\U{1C}' <= c <= ' '
    || c == '\U{85}' || c == '\U{A0}' || c == '\U{1680}'
    || '\U{2000}' <= c <= '\U{200A}'
    || c == '\U{2028}' || c == '\U{2029}' || c == '\U{202F}' || c == '\U{205F}' || c == '\U{3000}'
  }

  /** What a strip call removes: whitespace, or one given character. */
  datatype Strippable = Whitespace | Exactly(c: char)

  predicate Strips(what: Strippable, c: char) {
    match what
    case Whitespace => IsSpace(c)
    case Exactly(x) => c == x
  }

  function TrimLeft(s: string, what: Strippable): string {
    if s != "" && Strips(what, s[0]) then TrimLeft(s[1..], what) else s
  }

  function TrimRight(s: string, what: Strippable): string {
    if s != "" && Strips(what, s[|s| - 1]) then TrimRight(s[..|s| - 1], what) else s
  }

  function Trim(s: string, what: Strippable): string {
    TrimRight(TrimLeft(s, what), what)
  }

  function Strip(s: string): string {
    Trim(s, Whitespace)
  }

  /** len(text.encode("utf-8")) */
  function Utf8Length(s: string): nat {
    if s == "" then 0
    else (if s[0] < '\U{80}' then 1 else if s[0] < '\U{800}' then 2 else if s[0] < '\U{10000}' then 3 else 4)
         + Utf8Length(s[1..])
  }

  lemma {:induction false} Utf8OfSuffix(s: string, n: nat)
    requires n <= |s|
    ensures Utf8Length(s[n..]) <= Utf8Length(s)
  {
    if n > 0 {
      Utf8OfSuffix(s[1..], n - 1);
      assert s[1..][n - 1..] == s[n..];
    }
  }

  /** Where the first occurrence of a character is, or the length of the text. */
  function IndexOf(s: string, c: char): (n: nat)
    ensures n <= |s| && (n < |s| ==> s[n] == c) && forall i :: 0 <= i < n ==> s[i] != c
    ensures n == |s| <==> c !in s
  {
    if s == "" || s[0] == c then 0 else 1 + IndexOf(s[1..], c)
  }

  predicate PartAt(s: string, part: string, i: nat) {
    i <= |s| - |part| && s[i..i + |part|] == part
  }

  predicate Contains(s: string, part: string) {
    exists i | 0 <= i <= |s| :: PartAt(s, part, i)
  }

  // ---------------------------------------------------------------- numbers

  function Digit(d: nat): char
    requires d < 10
  {
    '0' + d as char
  }

  /** str(n) of a natural number. */
  function DecimalNat(n: nat): string {
    if n < 10 then [Digit(n)] else DecimalNat(n / 10) + [Digit(n % 10)]
  }

  function Decimal(n: int): string {
    if n < 0 then "-" + DecimalNat(-n) else DecimalNat(n)
  }

  /** str.isdigit over the ASCII digits. */
  predicate AllDigits(s: string) {
    s != "" && forall i :: 0 <= i < |s| ==> '0' <= s[i] <= '9'
  }

  /** int(s) of a string of digits. */
  function ParseNat(s: string): nat
    requires AllDigits(s)
  {
    var last := s[|s| - 1] as int - '0' as int;
    if |s| == 1 then last else 10 * ParseNat(s[..|s| - 1]) + last
  }

  lemma {:induction false} DecimalParses(n: nat)
    ensures AllDigits(DecimalNat(n)) && ParseNat(DecimalNat(n)) == n
  {
    if n >= 10 {
      DecimalParses(n / 10);
      var s := DecimalNat(n);
      assert s[..|s| - 1] == DecimalNat(n / 10);
    }
  }

  // ---------------------------------------------------------------- lines

  predicate BreakFree(s: string) {
    forall i :: 0 <= i < |s| ==> !IsLineBreak(s[i])
  }

  /** The only line break in the text is the newline. */
  predicate UnixBreaks(s: string) {
    forall i :: 0 <= i < |s| ==> IsLineBreak(s[i]) ==> s[i] == '\n'
  }

  /** Where the first line of the text ends. */
  function LineEnd(s: string): (n: nat)
    ensures n <= |s| && BreakFree(s[..n]) && (n < |s| ==> IsLineBreak(s[n]))
  {
    if s == "" || IsLineBreak(s[0]) then 0
    else
      var n := LineEnd(s[1..]);
      assert s[..n + 1] == [s[0]] + s[1..][..n];
      n + 1
  }

  /** A carriage return followed by a newline is one break. */
  function AfterBreak(s: string, n: nat): (m: nat)
    requires n <= |s|
    ensures n <= m <= |s| && (n < |s| ==> n < m)
  {
    if n == |s| then n
    else if s[n] == '\r' && n + 1 < |s| && s[n + 1] == '\n' then n + 2
    else n + 1
  }

  /** str.splitlines */
  function SplitLines(s: string): (lines: seq<string>)
    ensures forall line <- lines :: BreakFree(line)
    ensures s != "" ==> lines != []
  {
    if s == "" then []
    else
      var n := LineEnd(s);
      [s[..n]] + SplitLines(s[AfterBreak(s, n)..])
  }

  /** "\n".join(lines) */
  function Join(lines: seq<string>): string {
    if lines == [] then ""
    else if |lines| == 1 then lines[0]
    else lines[0] + "\n" + Join(lines[1..])
  }

  /** Every line followed by a newline. */
  function Terminated(lines: seq<string>): string {
    if lines == [] then "" else lines[0] + "\n" + Terminated(lines[1..])
  }

  lemma {:induction false} TerminatedIsJoined(lines: seq<string>)
    requires lines != []
    ensures Terminated(lines) == Join(lines) + "\n"
  {
    if |lines| == 1 {
      assert Terminated(lines[1..]) == "";
      assert Terminated(lines) == lines[0] + "\n" + "";
    } else {
      TerminatedIsJoined(lines[1..]);
      assert lines[0] + "\n" + (Join(lines[1..]) + "\n") == lines[0] + "\n" + Join(lines[1..]) + "\n";
    }
  }

  lemma {:induction false} TerminatedOfConcat(a: seq<string>, b: seq<string>)
    ensures Terminated(a + b) == Terminated(a) + Terminated(b)
  {
    if a == [] {
      assert a + b == b;
    } else {
      TerminatedOfConcat(a[1..], b);
      assert (a + b)[1..] == a[1..] + b;
    }
  }

  lemma {:induction false} LineEndOfLine(line: string, rest: string)
    requires BreakFree(line)
    ensures LineEnd(line + "\n" + rest) == |line|
  {
    var s := line + "\n" + rest;
    if line != "" {
      LineEndOfLine(line[1..], rest);
      assert s[1..] == line[1..] + "\n" + rest;
      assert s[0] == line[0];
    }
  }

  lemma SplitFirstLine(line: string, rest: string)
    requires BreakFree(line)
    ensures SplitLines(line + "\n" + rest) == [line] + SplitLines(rest)
  {
    var s := line + "\n" + rest;
    LineEndOfLine(line, rest);
    assert s[..|line|] == line;
    assert s[|line|] == '\n';
    assert s[|line| + 1..] == rest;
  }

  lemma {:induction false} SplitTerminated(lines: seq<string>, rest: string)
    requires forall line <- lines :: BreakFree(line)
    ensures SplitLines(Terminated(lines) + rest) == lines + SplitLines(rest)
  {
    if lines == [] {
      assert Terminated(lines) + rest == rest;
    } else {
      var tail := Terminated(lines[1..]) + rest;
      calc {
        SplitLines(Terminated(lines) + rest);
        { assert Terminated(lines) + rest == lines[0] + "\n" + tail; }
        SplitLines(lines[0] + "\n" + tail);
        { SplitFirstLine(lines[0], tail); }
        [lines[0]] + SplitLines(tail);
        { SplitTerminated(lines[1..], rest); }
        [lines[0]] + (lines[1..] + SplitLines(rest));
        { assert [lines[0]] + lines[1..] == lines; }
        lines + SplitLines(rest);
      }
    }
  }

  lemma {:induction false} LineEndOfAll(line: string)
    requires BreakFree(line)
    ensures LineEnd(line) == |line|
  {
    if line != "" {
      LineEndOfAll(line[1..]);
    }
  }

  lemma SplitOneLine(line: string)
    requires BreakFree(line) && line != ""
    ensures SplitLines(line) == [line]
  {
    LineEndOfAll(line);
    assert line[..|line|] == line;
    assert line[|line|..] == "";
  }

  /** Splitting undoes joining when the last line is not empty. */
  lemma {:induction false} SplitJoined(lines: seq<string>)
    requires lines != [] && lines[|lines| - 1] != ""
    requires forall line <- lines :: BreakFree(line)
    ensures SplitLines(Join(lines)) == lines
  {
    if |lines| == 1 {
      SplitOneLine(lines[0]);
    } else {
      SplitJoined(lines[1..]);
      SplitFirstLine(lines[0], Join(lines[1..]));
    }
  }

  /** Joining undoes splitting exactly on text whose only break is the newline. */
  lemma {:induction false} JoinSplit(s: string)
    ensures UnixBreaks(s) ==> Join(SplitLines(s + "\n")) == s
    decreases |s|
  {
    if UnixBreaks(s) {
      var n := LineEnd(s);
      if n == |s| {
        assert s[..n] == s;
        SplitFirstLine(s, "");
        assert s + "\n" + "" == s + "\n";
      } else {
        assert s == s[..n] + "\n" + s[n + 1..];
        JoinSplit(s[n + 1..]);
        JoinOfFirstLine(s[..n], s[n + 1..]);
      }
    }
  }

  lemma JoinOfFirstLine(line: string, rest: string)
    requires BreakFree(line) && Join(SplitLines(rest + "\n")) == rest
    ensures Join(SplitLines(line + "\n" + rest + "\n")) == line + "\n" + rest
  {
    SplitFirstLine(line, rest + "\n");
    assert line + "\n" + rest + "\n" == line + "\n" + (rest + "\n");
  }

  lemma UnixOfConcat(a: string, b: string)
    ensures UnixBreaks(a + b) <==> UnixBreaks(a) && UnixBreaks(b)
  {
    var s := a + b;
    assert forall i :: 0 <= i < |a| ==> s[i] == a[i];
    assert forall i :: 0 <= i < |b| ==> s[|a| + i] == b[i];
  }

  lemma {:induction false} JoinedIsUnix(lines: seq<string>)
    requires forall line <- lines :: BreakFree(line)
    ensures UnixBreaks(Join(lines))
  {
    if lines != [] {
      assert BreakFree(lines[0]);
    }
    if |lines| > 1 {
      JoinedIsUnix(lines[1..]);
      UnixOfConcat(lines[0], "\n");
      UnixOfConcat(lines[0] + "\n", Join(lines[1..]));
    }
  }

  // ---------------------------------------------------------------- strips

  /** A text a strip call leaves alone. */
  predicate Stripped(s: string, what: Strippable) {
    s == "" || (!Strips(what, s[0]) && !Strips(what, s[|s| - 1]))
  }

  lemma {:induction false} TrimLeftIsSuffix(s: string, what: Strippable) returns (n: nat)
    ensures n <= |s| && TrimLeft(s, what) == s[n..]
    ensures forall i :: 0 <= i < n ==> Strips(what, s[i])
    ensures n < |s| ==> !Strips(what, s[n])
  {
    if s != "" && Strips(what, s[0]) {
      n := TrimLeftIsSuffix(s[1..], what);
      n := n + 1;
    } else {
      n := 0;
    }
  }

  lemma {:induction false} TrimRightIsPrefix(s: string, what: Strippable) returns (n: nat)
    ensures n <= |s| && TrimRight(s, what) == s[..n]
    ensures forall i :: n <= i < |s| ==> Strips(what, s[i])
    ensures n > 0 ==> !Strips(what, s[n - 1])
  {
    if s != "" && Strips(what, s[|s| - 1]) {
      n := TrimRightIsPrefix(s[..|s| - 1], what);
      assert s[..|s| - 1][..n] == s[..n];
    } else {
      n := |s|;
      assert s[..n] == s;
    }
  }

  /** What a strip keeps is a stretch of the text that no strip shortens. */
  lemma TrimIsStretch(s: string, what: Strippable) returns (a: nat, b: nat)
    ensures a <= b <= |s| && Trim(s, what) == s[a..b]
    ensures Stripped(Trim(s, what), what)
    ensures forall i :: 0 <= i < a || b <= i < |s| ==> Strips(what, s[i])
  {
    a := TrimLeftIsSuffix(s, what);
    var n := TrimRightIsPrefix(s[a..], what);
    b := a + n;
    assert s[a..][..n] == s[a..b];
    forall i | b <= i < |s| ensures Strips(what, s[i]) {
      assert s[i] == s[a..][i - a];
    }
  }

  /** A strip finds the stretch between strippable margins. */
  lemma {:induction false} TrimOfMargins(left: string, core: string, right: string, what: Strippable)
    requires Stripped(core, what)
    requires forall i :: 0 <= i < |left| ==> Strips(what, left[i])
    requires forall i :: 0 <= i < |right| ==> Strips(what, right[i])
    ensures Trim(left + core + right, what) == core
    decreases |left| + |right|
  {
    var s := left + core + right;
    var a, b := TrimIsStretch(s, what);
    var t := s[a..b];
    assert a < b ==> t[0] == s[a] && t[|t| - 1] == s[b - 1];
    if core != "" {
      var c := |left| + |core|;
      assert s[|left|] == core[0] && s[c - 1] == core[|core| - 1];
      assert a <= |left| && c <= b;
      assert s[|left|..c] == core;
    }
  }

  lemma TrimOfStripped(s: string, what: Strippable)
    requires Stripped(s, what)
    ensures Trim(s, what) == s
  {
    TrimOfMargins("", s, "", what);
    assert "" + s + "" == s;
  }

  /** Margins of what is stripped do not matter. */
  lemma TrimIgnoresMargins(left: string, s: string, right: string, what: Strippable)
    requires forall i :: 0 <= i < |left| ==> Strips(what, left[i])
    requires forall i :: 0 <= i < |right| ==> Strips(what, right[i])
    ensures Trim(left + s + right, what) == Trim(s, what)
  {
    var a, b := TrimIsStretch(s, what);
    TrimOfMargins(left + s[..a], s[a..b], s[b..] + right, what);
    assert left + s[..a] + s[a..b] + (s[b..] + right) == left + s + right;
  }

  // ---------------------------------------------------------------- order

  /** Lexicographic order of strings by character. */
  predicate StringAtMost(a: string, b: string) {
    a == "" || (b != "" && (a[0] < b[0] || (a[0] == b[0] && StringAtMost(a[1..], b[1..]))))
  }

  lemma {:induction false} StringOrder(a: string, b: string, c: string)
    ensures StringAtMost(a, a)
    ensures StringAtMost(a, b) || StringAtMost(b, a)
    ensures StringAtMost(a, b) && StringAtMost(b, a) ==> a == b
    ensures StringAtMost(a, b) && StringAtMost(b, c) ==> StringAtMost(a, c)
    decreases |a| + |b| + |c|
  {
    if a != "" {
      StringOrder(a[1..], if b != "" then b[1..] else "", if c != "" then c[1..] else "");
      if b != "" && a[0] == b[0] && a[1..] == b[1..] {
        assert a == [a[0]] + a[1..] && b == [b[0]] + b[1..];
      }
    }
  }

  /** The first characters that differ are the `k`th, and that of `a` is the smaller. */
  predicate FirstSmaller(a: string, b: string, k: nat) {
    k < |a| && k < |b| && (forall i :: 0 <= i < k ==> a[i] == b[i]) && a[k] < b[k]
  }

  lemma SmallerInTail(a: string, b: string, k: nat)
    requires a != "" && b != "" && a[0] == b[0]
    ensures FirstSmaller(a[1..], b[1..], k) <==> FirstSmaller(a, b, k + 1)
  {
    if FirstSmaller(a, b, k + 1) {
      forall i | 0 <= i < k ensures a[1..][i] == b[1..][i] {
        assert a[i + 1] == b[i + 1];
      }
    }
  }

  lemma PrefixInTail(a: string, b: string)
    requires a != "" && b != "" && a[0] == b[0]
    ensures a[1..] <= b[1..] <==> a <= b
  {
    assert a == [a[0]] + a[1..] && b == [b[0]] + b[1..];
    if a[1..] <= b[1..] { assert b[1..][..|a| - 1] == a[1..]; }
  }

  /** One is the beginning of the other, or the first characters that differ decide. */
  lemma {:induction false} StringAtMostIff(a: string, b: string)
    ensures StringAtMost(a, b) <==> a <= b || exists k: nat :: FirstSmaller(a, b, k)
  {
    if a != "" && b != "" {
      if a[0] == b[0] {
        StringAtMostIff(a[1..], b[1..]);
        PrefixInTail(a, b);
        forall k: nat ensures FirstSmaller(a[1..], b[1..], k) <==> FirstSmaller(a, b, k + 1) { SmallerInTail(a, b, k); }
        if k: nat :| FirstSmaller(a, b, k) {
          assert FirstSmaller(a[1..], b[1..], k - 1);
        }
      } else if a[0] < b[0] {
        assert FirstSmaller(a, b, 0);
      }
    }
  }

  /** The code points that str.splitlines breaks at, and those that str.strip removes besides. */
  lemma BlankCodes(c: char)
    ensures IsLineBreak(c) <==> c as int in {10, 11, 12, 13, 28, 29, 30, 133, 8232, 8233}
    ensures IsSpace(c) <==>
              || IsLineBreak(c)
              || c as int in {9, 31, 32, 160, 5760, 8239, 8287, 12288} || 8192 <= c as int <= 8202
  {
  }
}
