/** The JavaScript string operations the handlers rely on: `split("\n")`,
    `trim()`, `endsWith` and the decimal rendering of a number. `Join`, the
    inverse of the split, is here only to state how the framing cuts text into lines. */
module Text {

  /** The characters `String.prototype.trim` removes: the ECMAScript
      WhiteSpace (including every space separator) and LineTerminator characters. */
  predicate IsWhitespace(c: char) {
    || c == ' ' || c == '\t' || c == '\n' || c == '\r' || c == '\U{B}' || c == '\U{C}'
    || c == '\U{A0}' || c == '\U{1680}' || ('\U{2000}' <= c <= '\U{200A}')
    || c == '\U{2028}' || c == '\U{2029}' || c == '\U{202F}' || c == '\U{205F}'
    || c == '\U{3000}' || c == '\U{FEFF}'
  }

  predicate AllWhitespace(s: string) {
    forall i :: 0 <= i < |s| ==> IsWhitespace(s[i])
  }

  /** `t` is what is left of `s` once its leading whitespace is dropped. */
  predicate LeadingStripped(s: string, t: string) {
    && |t| <= |s| && t == s[|s| - |t|..] && AllWhitespace(s[..|s| - |t|])
    && (t == [] || !IsWhitespace(t[0]))
  }

  /** `r` is what is left of `t` once its trailing whitespace is dropped. */
  predicate TrailingStripped(t: string, r: string) {
    && |r| <= |t| && r == t[..|r|] && AllWhitespace(t[|r|..])
    && (r == [] || !IsWhitespace(r[|r| - 1]))
  }

  /** `r` is the slice of `s` that starts at `a` and has only whitespace on both sides. */
  predicate WhitespaceAround(s: string, a: int, r: string) {
    && 0 <= a && a + |r| <= |s| && r == s[a..a + |r|]
    && AllWhitespace(s[..a]) && AllWhitespace(s[a + |r|..])
  }

  /** Drops the leading whitespace of `s`. */
  function TrimStart(s: string): (r: string)
    ensures LeadingStripped(s, r)
  {
    if s != [] && IsWhitespace(s[0]) then TrimStart(s[1..]) else s
  }

  /** Drops the trailing whitespace of `s`. */
  function TrimEnd(s: string): (r: string)
    ensures TrailingStripped(s, r)
  {
    if s != [] && IsWhitespace(s[|s| - 1]) then TrimEnd(s[..|s| - 1]) else s
  }

  /** `s.trim()`: the part of `s` between its leading and its trailing whitespace. */
  function Trim(s: string): (r: string)
    ensures r == [] <==> AllWhitespace(s)
    ensures r != [] ==> !IsWhitespace(r[0]) && !IsWhitespace(r[|r| - 1])
    ensures |r| <= |s|
  {
    TrimFacts(s, TrimStart(s), TrimEnd(TrimStart(s)));
    TrimEnd(TrimStart(s))
  }

  /** The trimmed text is the slice of `s` that starts after its leading
      whitespace and is followed only by whitespace. */
  lemma TrimIsSlice(s: string)
    ensures WhitespaceAround(s, |s| - |TrimStart(s)|, Trim(s))
  {
    var t := TrimStart(s);
    var r := TrimEnd(t);
    assert Trim(s) == r;
    TrimFacts(s, t, r);
  }

  /** Trimming at both ends leaves a slice of `s` with only whitespace
      around it, and leaves nothing exactly for whitespace-only text. */
  lemma TrimFacts(s: string, t: string, r: string)
    requires LeadingStripped(s, t) && TrailingStripped(t, r)
    ensures r == [] <==> AllWhitespace(s)
    ensures r != [] ==> !IsWhitespace(r[0]) && !IsWhitespace(r[|r| - 1])
    ensures |r| <= |s|
    ensures WhitespaceAround(s, |s| - |t|, r)
  {
    var a := |s| - |t|;
    MiddleSlice(s, a, t, r);
    if r == [] {
      assert t[|r|..] == t;
      assert s == s[..a] + t;
    } else {
      assert r[0] == t[0] == s[a];
    }
  }

  /** A prefix `r` of the suffix `t` of `s` that starts at `a` is the slice of
      `s` from `a`, and what follows it in `t` is what follows it in `s`. */
  lemma MiddleSlice<T>(s: seq<T>, a: nat, t: seq<T>, r: seq<T>)
    requires a <= |s| && t == s[a..] && |r| <= |t| && r == t[..|r|]
    ensures a + |r| <= |s| && r == s[a..a + |r|] && t[|r|..] == s[a + |r|..]
  {
  }

  /** A non-empty sequence is its front followed by its last element. */
  lemma InitLast<T>(s: seq<T>)
    requires s != []
    ensures s[..|s| - 1] + [s[|s| - 1]] == s
  {
  }

  /** The test `line.trim() === ""` with which the handlers skip blank
      lines, stated as "every character is whitespace" (see `BlankIffTrimEmpty`). */
  predicate IsBlank(s: string) {
    AllWhitespace(s)
  }

  /** Every line of `lines` is blank. */
  predicate AllBlank(lines: seq<string>) {
    forall i :: 0 <= i < |lines| ==> IsBlank(lines[i])
  }

  /** A line is blank exactly when trimming leaves nothing. */
  lemma BlankIffTrimEmpty(s: string)
    ensures IsBlank(s) <==> Trim(s) == ""
  {
  }

  lemma NoNewlinesAppend(a: seq<string>, b: seq<string>)
    requires NoNewlines(a) && NoNewlines(b)
    ensures NoNewlines(a + b)
  {
    forall i | 0 <= i < |a + b| ensures '\n' !in (a + b)[i] {
      if i < |a| { assert (a + b)[i] == a[i]; } else { assert (a + b)[i] == b[i - |a|]; }
    }
  }

  /** `s.split("\n")`: the pieces between line feeds, one more piece than
      there are line feeds, none of them holding a line feed. */
  function Split(s: string): (r: seq<string>)
    ensures |r| >= 1
    ensures NoNewlines(r)
    ensures |r| == CountNewlines(s) + 1
  {
    if s == [] then [""]
    else
      var rest := Split(s[1..]);
      if s[0] == '\n' then [""] + rest
      else [[s[0]] + rest[0]] + rest[1..]
  }

  function CountNewlines(s: string): nat {
    if s == [] then 0 else (if s[0] == '\n' then 1 else 0) + CountNewlines(s[1..])
  }

  predicate NoNewlines(lines: seq<string>) {
    forall i :: 0 <= i < |lines| ==> '\n' !in lines[i]
  }

  /** The lines rejoined with line feeds: the inverse of `Split`, used to
      state what the framing of the analysis stream keeps. */
  function Join(lines: seq<string>): string {
    if lines == [] then ""
    else if |lines| == 1 then lines[0]
    else lines[0] + "\n" + Join(lines[1..])
  }

  /** Every line followed by its line feed: the wire form of a run of records. */
  function Terminated(lines: seq<string>): string {
    if lines == [] then "" else lines[0] + "\n" + Terminated(lines[1..])
  }

  /** Joining the pieces of a split gives back the string. */
  lemma {:induction false} JoinSplit(s: string)
    ensures Join(Split(s)) == s
  {
    if s != [] {
      JoinSplit(s[1..]);
      if s[0] == '\n' {
        JoinSplitAtFeed(s);
      } else {
        JoinSplitAtChar(s);
      }
    }
  }

  /** The step of `JoinSplit` for a text that starts with a line feed. */
  lemma JoinSplitAtFeed(s: string)
    requires s != [] && s[0] == '\n' && Join(Split(s[1..])) == s[1..]
    ensures Join(Split(s)) == s
  {
    var rest := Split(s[1..]);
    assert s == [s[0]] + s[1..];
    calc {
      Join(Split(s));
      Join([""] + rest);
      { assert ([""] + rest)[1..] == rest; }
      "" + "\n" + Join(rest);
    }
  }

  /** The step of `JoinSplit` for a text that starts with another character. */
  lemma JoinSplitAtChar(s: string)
    requires s != [] && s[0] != '\n' && Join(Split(s[1..])) == s[1..]
    ensures Join(Split(s)) == s
  {
    var rest := Split(s[1..]);
    assert Split(s) == [[s[0]] + rest[0]] + rest[1..];
    JoinExtendFirst(s[0], rest);
    assert s == [s[0]] + s[1..];
  }

  /** Putting a character in front of the first line puts it in front of the joined text. */
  lemma JoinExtendFirst(c: char, lines: seq<string>)
    requires |lines| >= 1
    ensures Join([[c] + lines[0]] + lines[1..]) == [c] + Join(lines)
  {
    var r := [[c] + lines[0]] + lines[1..];
    if |lines| > 1 {
      assert r[1..] == lines[1..];
    }
  }

  /** Splitting a line that holds no line feed gives that line alone. */
  lemma {:induction false} SplitSingle(x: string)
    requires '\n' !in x
    ensures Split(x) == [x]
  {
    if x != [] {
      SplitSingle(x[1..]);
      assert x == [x[0]] + x[1..];
    }
  }

  /** A line feed after a line that holds none starts a new piece. */
  lemma {:induction false} SplitAfterLine(x: string, y: string)
    requires '\n' !in x
    ensures Split(x + "\n" + y) == [x] + Split(y)
  {
    var s := x + "\n" + y;
    if x == [] {
      assert s[0] == '\n' && s[1..] == y;
    } else {
      assert s[0] == x[0] && s[1..] == x[1..] + "\n" + y;
      SplitAfterLine(x[1..], y);
      assert [x[0]] + x[1..] == x;
    }
  }

  /** Splitting what was joined gives back the lines, when none holds a line feed. */
  lemma {:induction false} SplitJoin(lines: seq<string>)
    requires |lines| >= 1 && NoNewlines(lines)
    ensures Split(Join(lines)) == lines
  {
    if |lines| == 1 {
      SplitSingle(lines[0]);
    } else {
      SplitJoin(lines[1..]);
      SplitAfterLine(lines[0], Join(lines[1..]));
    }
  }

  lemma {:induction false} JoinTerminated(lines: seq<string>, tail: string)
    ensures Join(lines + [tail]) == Terminated(lines) + tail
  {
    if lines != [] {
      JoinTerminated(lines[1..], tail);
      assert (lines + [tail])[1..] == lines[1..] + [tail];
    }
  }

  lemma {:induction false} TerminatedAppend(a: seq<string>, b: seq<string>)
    ensures Terminated(a + b) == Terminated(a) + Terminated(b)
  {
    if a == [] {
      assert a + b == b;
    } else {
      calc {
        Terminated(a + b);
        { assert (a + b)[0] == a[0] && (a + b)[1..] == a[1..] + b; }
        a[0] + "\n" + Terminated(a[1..] + b);
        { TerminatedAppend(a[1..], b); }
        a[0] + "\n" + (Terminated(a[1..]) + Terminated(b));
        (a[0] + "\n" + Terminated(a[1..])) + Terminated(b);
      }
    }
  }

  /** The lines of `s` that a line feed has completed, in order. */
  function CompleteLines(s: string): seq<string> {
    var parts := Split(s);
    parts[..|parts| - 1]
  }

  /** The text after the last line feed of `s`, which no line feed has completed yet. */
  function Remainder(s: string): string {
    var parts := Split(s);
    parts[|parts| - 1]
  }

  /** Every string is its complete lines, each with its line feed, followed by the remainder. */
  lemma Decompose(s: string)
    ensures Terminated(CompleteLines(s)) + Remainder(s) == s
    ensures NoNewlines(CompleteLines(s)) && '\n' !in Remainder(s)
  {
    var parts := Split(s);
    JoinSplit(s);
    assert parts == parts[..|parts| - 1] + [parts[|parts| - 1]];
    JoinTerminated(parts[..|parts| - 1], parts[|parts| - 1]);
  }

  /** The decomposition is unique: lines without line feeds, each terminated,
      followed by a tail without one, are the complete lines and the remainder. */
  lemma Unique(lines: seq<string>, tail: string)
    requires NoNewlines(lines) && '\n' !in tail
    ensures CompleteLines(Terminated(lines) + tail) == lines
    ensures Remainder(Terminated(lines) + tail) == tail
  {
    JoinTerminated(lines, tail);
    SplitJoin(lines + [tail]);
  }

  lemma TerminatedThen(a: seq<string>, b: seq<string>, tail: string)
    ensures Terminated(a) + (Terminated(b) + tail) == Terminated(a + b) + tail
  {
    TerminatedAppend(a, b);
  }

  /** Text after complete lines does not change them: the complete lines
      of a longer stream extend those of its prefix. */
  lemma AfterLines(lines: seq<string>, x: string)
    requires NoNewlines(lines)
    ensures CompleteLines(Terminated(lines) + x) == lines + CompleteLines(x)
    ensures Remainder(Terminated(lines) + x) == Remainder(x)
  {
    var cl, rm := CompleteLines(x), Remainder(x);
    Decompose(x);
    TerminatedThen(lines, cl, rm);
    assert NoNewlines(lines + cl) by {
      forall i | 0 <= i < |lines + cl| ensures '\n' !in (lines + cl)[i] {
        if i < |lines| { assert (lines + cl)[i] == lines[i]; }
        else { assert (lines + cl)[i] == cl[i - |lines|]; }
      }
    }
    Unique(lines + cl, rm);
  }

  /** The text a stream delivers in its chunks, in order. */
  function Concat(chunks: seq<string>): string {
    if chunks == [] then "" else Concat(chunks[..|chunks| - 1]) + chunks[|chunks| - 1]
  }

  /** Cutting the chunks at `k` cuts their concatenation. */
  lemma ConcatSplit(chunks: seq<string>, k: nat)
    requires k <= |chunks|
    ensures Concat(chunks) == Concat(chunks[..k]) + Concat(chunks[k..])
  {
    assert chunks == chunks[..k] + chunks[k..];
    ConcatAppend(chunks[..k], chunks[k..]);
  }

  lemma {:induction false} ConcatAppend(a: seq<string>, b: seq<string>)
    ensures Concat(a + b) == Concat(a) + Concat(b)
  {
    if b == [] {
      assert a + b == a;
    } else {
      ConcatAppend(a, b[..|b| - 1]);
      assert (a + b)[..|a + b| - 1] == a + b[..|b| - 1];
    }
  }

  /** The entries of `lines` whose trimmed text is not empty, in order. */
  function NonBlank(lines: seq<string>): (r: seq<string>)
    ensures |r| <= |lines|
    ensures forall i :: 0 <= i < |r| ==> !IsBlank(r[i])
  {
    if lines == [] then []
    else if IsBlank(lines[0]) then NonBlank(lines[1..])
    else [lines[0]] + NonBlank(lines[1..])
  }

  /** The filter keeps exactly the non-blank lines. */
  lemma {:induction false} NonBlankMembers(lines: seq<string>)
    ensures forall i :: 0 <= i < |NonBlank(lines)| ==> !IsBlank(NonBlank(lines)[i]) && NonBlank(lines)[i] in lines
    ensures forall l :: l in lines && !IsBlank(l) ==> l in NonBlank(lines)
  {
    if lines != [] {
      NonBlankMembers(lines[1..]);
      assert lines == [lines[0]] + lines[1..];
    }
  }

  /** One line in front: it is kept exactly when it is not blank. */
  lemma NonBlankCons(x: string, xs: seq<string>)
    ensures NonBlank([x] + xs) == (if IsBlank(x) then [] else [x]) + NonBlank(xs)
  {
    assert ([x] + xs)[1..] == xs;
  }

  /** The filter keeps the order of its input: filtering a concatenation
      concatenates the filtered parts, and one line is kept exactly when it is
      not blank. */
  lemma {:induction false} NonBlankAppend(a: seq<string>, b: seq<string>)
    ensures NonBlank(a + b) == NonBlank(a) + NonBlank(b)
    ensures forall l :: NonBlank([l]) == if IsBlank(l) then [] else [l]
  {
    if a == [] {
      assert a + b == b;
    } else {
      var h := if IsBlank(a[0]) then [] else [a[0]];
      calc {
        NonBlank(a + b);
        { assert a + b == [a[0]] + (a[1..] + b); }
        NonBlank([a[0]] + (a[1..] + b));
        { NonBlankCons(a[0], a[1..] + b); }
        h + NonBlank(a[1..] + b);
        { NonBlankAppend(a[1..], b); }
        h + (NonBlank(a[1..]) + NonBlank(b));
        (h + NonBlank(a[1..])) + NonBlank(b);
        { NonBlankCons(a[0], a[1..]); assert [a[0]] + a[1..] == a; }
        NonBlank(a) + NonBlank(b);
      }
    }
    forall l ensures NonBlank([l]) == if IsBlank(l) then [] else [l] {
      NonBlankCons(l, []);
      assert [l] + [] == [l];
    }
  }

  /** The work list of a pasted URL list: its non-blank lines, in order. */
  function UrlList(text: string): (r: seq<string>)
    ensures |r| <= CountNewlines(text) + 1
    ensures forall i :: 0 <= i < |r| ==> !IsBlank(r[i])
  {
    NonBlank(Split(text))
  }

  /** An all-whitespace text has no work: `text.trim() === ""` exactly when
      the list of its non-blank lines is empty. */
  lemma {:induction false} BlankTextHasNoUrls(text: string)
    ensures IsBlank(text) <==> UrlList(text) == []
  {
    var parts := Split(text);
    JoinSplit(text);
    if IsBlank(text) {
      forall i | 0 <= i < |parts| ensures IsBlank(parts[i]) {
        forall k | 0 <= k < |parts[i]| ensures IsWhitespace(parts[i][k]) {
          JoinCharAt(parts, i, k);
        }
      }
      NoNonBlankGivesEmpty(parts);
    } else {
      var k :| 0 <= k < |text| && !IsWhitespace(text[k]);
      var i, j := JoinLocate(parts, k);
      assert !IsBlank(parts[i]);
      assert parts[i] in parts;
      NonBlankMembers(parts);
    }
  }

  lemma {:induction false} NoNonBlankGivesEmpty(lines: seq<string>)
    requires forall i :: 0 <= i < |lines| ==> IsBlank(lines[i])
    ensures NonBlank(lines) == []
  {
    if lines != [] {
      NoNonBlankGivesEmpty(lines[1..]);
    }
  }

  /** A character of a line is a character of the joined text. */
  lemma {:induction false} JoinCharAt(lines: seq<string>, i: nat, k: nat)
    requires i < |lines| && k < |lines[i]|
    ensures exists m :: 0 <= m < |Join(lines)| && Join(lines)[m] == lines[i][k]
  {
    if |lines| == 1 {
      assert Join(lines)[k] == lines[i][k];
    } else if i == 0 {
      assert Join(lines)[k] == lines[0][k];
    } else {
      JoinCharAt(lines[1..], i - 1, k);
      var m :| 0 <= m < |Join(lines[1..])| && Join(lines[1..])[m] == lines[1..][i - 1][k];
      assert Join(lines)[|lines[0]| + 1 + m] == lines[i][k];
    }
  }

  /** A character of the joined text that is not a line feed sits in one of the lines. */
  lemma {:induction false} JoinLocate(lines: seq<string>, m: nat) returns (i: nat, k: nat)
    requires m < |Join(lines)| && Join(lines)[m] != '\n'
    ensures i < |lines| && k < |lines[i]| && lines[i][k] == Join(lines)[m]
  {
    if |lines| == 1 {
      i, k := 0, m;
    } else if m < |lines[0]| {
      i, k := 0, m;
    } else {
      assert m != |lines[0]|;
      var i', k' := JoinLocate(lines[1..], m - |lines[0]| - 1);
      i, k := i' + 1, k';
    }
  }

  /** `s.endsWith(suffix)`. */
  predicate EndsWith(s: string, suffix: string) {
    |suffix| <= |s| && s[|s| - |suffix|..] == suffix
  }

  /** The number a string of decimal digits denotes. */
  function DigitsValue(s: string): nat
    requires forall i :: 0 <= i < |s| ==> '0' <= s[i] <= '9'
  {
    if s == [] then 0 else DigitsValue(s[..|s| - 1]) * 10 + (s[|s| - 1] as int - '0' as int)
  }

  /** The decimal rendering of a natural number, as a template literal prints it. */
  function DecimalString(n: nat): (r: string)
    ensures |r| >= 1
    ensures forall i :: 0 <= i < |r| ==> '0' <= r[i] <= '9'
    ensures n > 0 ==> r[0] != '0'
    ensures DigitsValue(r) == n
  {
    var d := ['0' + (n % 10) as char];
    if n < 10 then d
    else
      var p := DecimalString(n / 10);
      assert (p + d)[..|p + d| - 1] == p;
      p + d
  }
}
