/** Cursor primitives of the keynote parser (keynotec/parser.py and its
    earlier revision keynotec.py share them verbatim).

    Every production threads a cursor, the pair `(content, line)`: the text
    that is still to be read and the number of the line it starts on. The
    text is absent (Python's `None`) once the input is exhausted. */
module Cursors {

  /** What went wrong. Every kind but `Crash` is one of the parser's
      `raise Exception(...)`; `Crash` stands for a Python runtime error
      (an index past the end, `None[0]`, `len(None)`, a bad `float`, a
      missing dictionary key) that aborts the parse just as well. */
  datatype ErrorKind =
    | ExpectedColon               // "Expected ':' at line"
    | ExpectedCloseParen          // "Expected ')' at line {}."
    | InvalidSlideType(name: string)
    | InvalidTransition(name: string)
    | ExpectedHash                // "Expected '#' at line"
    | ExpectedSpaceAfterHash      // "Expected a whitespace after '#' at line {}"
    | ExpectedCitationAuthor      // "Expected citation author at line {}."
    | ExpectedDashes              // "Expected '--' at line"
    | ExpectedImage               // "Expecting '[' to parse image at line {}"
    | ImageOpenAtEnd              // "Image open at end of file (from line {})"
    | ExpectedFence               // "Expected '```' at line {}."
    | LessIndentation             // "Items cannot have less identation than first item at line {}"
    | ExpectedItemsImage          // "Expected image for items+image slide at line {}"
    | NoSlide                     // "No slide was defined."
    | InputLeft                   // "There should be no input left at line {}"
    | Crash

  /** A failure and the line the parser reports with it. */
  datatype Error = Error(kind: ErrorKind, line: int)

  datatype Result<+T> = Ok(value: T) | Err(error: Error) {
    predicate IsFailure() { Err? }
    function PropagateFailure<U>(): Result<U> requires Err? { Err(error) }
    function Extract(): T requires Ok? { value }
  }

  datatype Option<+T> = None | Some(value: T)

  /** The parser's `(content, line)` pair. */
  datatype Cursor = At(text: string, line: int) | Exhausted(line: int)

  /** How much input is left; `Exhausted` has less than any text, even "". */
  function Remaining(c: Cursor): nat {
    if c.At? then |c.text| + 1 else 0
  }

  /** `r` may come after `c`: the line never goes back, the input never grows. */
  predicate Follows(c: Cursor, r: Cursor) {
    c.line <= r.line && Remaining(r) <= Remaining(c)
  }

  /** Python's slice `s[n:]`, which is empty when `n` is past the end. */
  function Drop(s: string, n: nat): (r: string)
    ensures |r| == if n <= |s| then |s| - n else 0
    ensures forall i :: 0 <= i < |r| ==> r[i] == s[n + i]
  {
    if n <= |s| then s[n..] else []
  }

  /** Number of newlines in `s`: each one the parser steps over is a line. */
  function Newlines(s: string): nat {
    multiset(s)['\n']
  }

  // -- character classes --

  /** Python's `string.whitespace`: space, tab, newline, return, vertical tab, form feed. */
  predicate IsWhitespace(ch: char) {
    ch == ' ' || ch == '\t' || ch == '\n' || ch == '\r' || ch == '\U{B}' || ch == '\U{C}'
  }

  /** The characters Python's `str.strip()` removes (`str.isspace`). */
  predicate IsStripSpace(ch: char) {
    IsWhitespace(ch)
    || ('\U{1C}' <= ch <= '\U{1F}') || ch == '\U{85}' || ch == '\U{A0}' || ch == '\U{1680}'
    || ('\U{2000}' <= ch <= '\U{200A}') || ch == '\U{2028}' || ch == '\U{2029}'
    || ch == '\U{202F}' || ch == '\U{205F}' || ch == '\U{3000}'
  }

  predicate IsDigit(ch: char) { '0' <= ch <= '9' }

  /** A member of `letters | numbers`: ASCII letters and digits. */
  predicate IsAlnum(ch: char) {
    ('a' <= ch <= 'z') || ('A' <= ch <= 'Z') || IsDigit(ch)
  }

  // -- scanning --

  /** Length of the longest prefix of `s` whose characters all satisfy `keep`:
      where an index loop `while i < len(s) and keep(s[i])` stops. */
  function PrefixWhile(s: string, keep: char -> bool): (k: nat)
    ensures k <= |s|
    ensures k < |s| ==> !keep(s[k])
  {
    if s == [] || !keep(s[0]) then 0 else 1 + PrefixWhile(s[1..], keep)
  }

  /** Every character of the prefix satisfies `keep`. */
  lemma {:induction false} PrefixWhileKeeps(s: string, keep: char -> bool)
    ensures forall i :: 0 <= i < PrefixWhile(s, keep) ==> keep(s[i])
  {
    if s != [] && keep(s[0]) {
      PrefixWhileKeeps(s[1..], keep);
    }
  }

  /** The stopping point of such a loop is unique. */
  lemma PrefixWhileUnique(s: string, keep: char -> bool, k: nat)
    requires k <= |s|
    requires forall i :: 0 <= i < k ==> keep(s[i])
    requires k < |s| ==> !keep(s[k])
    ensures k == PrefixWhile(s, keep)
  {
    PrefixWhileKeeps(s, keep);
  }

  /** Index of the first `ch` in `s`, or `|s|` when there is none. */
  function IndexOf(s: string, ch: char): (k: nat)
    ensures k <= |s|
    ensures k < |s| ==> s[k] == ch
    ensures k == |s| <==> ch !in s
  {
    if s == [] then 0 else if s[0] == ch then 0 else 1 + IndexOf(s[1..], ch)
  }

  /** No `ch` comes before the first one. */
  lemma {:induction false} IndexOfBefore(s: string, ch: char)
    ensures forall i :: 0 <= i < IndexOf(s, ch) ==> s[i] != ch
  {
    if s != [] && s[0] != ch {
      IndexOfBefore(s[1..], ch);
    }
  }

  /** The first `ch` is where a scan for it stops. */
  lemma IndexOfUnique(s: string, ch: char, k: nat)
    requires k <= |s|
    requires forall i :: 0 <= i < k ==> s[i] != ch
    requires k < |s| ==> s[k] == ch
    ensures k == IndexOf(s, ch)
  {
    if k > 0 {
      IndexOfUnique(s[1..], ch, k - 1);
    }
  }

  /** Number of trailing characters of `s` that `str.strip()` removes. */
  function TrailingSpace(s: string): (n: nat)
    ensures n <= |s|
    ensures forall i :: |s| - n <= i < |s| ==> IsStripSpace(s[i])
    ensures n < |s| ==> !IsStripSpace(s[|s| - n - 1])
  {
    if s == [] || !IsStripSpace(s[|s| - 1]) then 0 else 1 + TrailingSpace(s[..|s| - 1])
  }

  /** Python's `s.strip()`: `s` without its leading and trailing white space. */
  function Strip(s: string): (r: string)
    ensures r != [] ==> !IsStripSpace(r[0]) && !IsStripSpace(r[|r| - 1])
    ensures var a := PrefixWhile(s, IsStripSpace);
      && a + |r| <= |s|
      && r == s[a..a + |r|]
      && forall i :: a + |r| <= i < |s| ==> IsStripSpace(s[i])
  {
    var a := PrefixWhile(s, IsStripSpace);
    var t := s[a..];
    t[..|t| - TrailingSpace(t)]
  }

  /** Stripping leaves a string that has no white space at either end unchanged. */
  lemma StripUnchanged(s: string)
    requires s == [] || (!IsStripSpace(s[0]) && !IsStripSpace(s[|s| - 1]))
    ensures Strip(s) == s
  {
    var a := PrefixWhile(s, IsStripSpace);
    assert a == 0;
    var t := s[a..];
    assert t == s;
    assert TrailingSpace(t) == 0;
  }

  /** A character of `Strip(s)` is a character of `s`. */
  lemma StripKeeps(s: string, ch: char)
    requires ch !in s
    ensures ch !in Strip(s)
  {
  }

  // -- skip_space --

  /** skip_space: an exhausted or empty cursor becomes `Exhausted`; otherwise
      the leading white space is dropped and the line advances once per
      newline dropped. */
  function SkipSpace(c: Cursor): (r: Cursor)
    ensures Follows(c, r)
    ensures r.Exhausted? <==> (c.Exhausted? || c.text == [])
    ensures r.Exhausted? ==> r.line == c.line
    ensures r.At? ==>
      c.At? &&
      var k := |c.text| - |r.text|;
      && 0 <= k
      && c.text[k..] == r.text
      && (r.text != [] ==> !IsWhitespace(r.text[0]))
      && r.line == c.line + Newlines(c.text[..k])
  {
    match c
    case Exhausted(line) => Exhausted(line)
    case At(s, line) =>
      if s == [] then Exhausted(line)
      else
        var k := PrefixWhile(s, IsWhitespace);
        At(s[k..], line + Newlines(s[..k]))
  }

  /** What skip_space drops is white space only. */
  lemma SkipSpaceDropsWhite(c: Cursor)
    requires SkipSpace(c).At?
    ensures forall i :: 0 <= i < |c.text| - |SkipSpace(c).text| ==> IsWhitespace(c.text[i])
  {
    PrefixWhileKeeps(c.text, IsWhitespace);
  }

  /** Counting newlines one character further. */
  lemma NewlinesStep(t: string, i: nat)
    requires i < |t|
    ensures Newlines(t[..i + 1]) == Newlines(t[..i]) + if t[i] == '\n' then 1 else 0
  {
    assert t[..i + 1] == t[..i] + [t[i]];
  }

  /** skip_space as the source writes it: an index loop counting newlines. */
  method SkipSpaceScan(c: Cursor) returns (r: Cursor)
    ensures r == SkipSpace(c)
  {
    if c.Exhausted? || c.text == [] {
      return Exhausted(c.line);
    }
    var s, line, i := c.text, c.line, 0;
    while i < |s| && IsWhitespace(s[i])
      invariant 0 <= i <= |s|
      invariant forall j :: 0 <= j < i ==> IsWhitespace(s[j])
      invariant line == c.line + Newlines(s[..i])
    {
      NewlinesStep(s, i);
      if s[i] == '\n' {
        line := line + 1;
      }
      i := i + 1;
    }
    PrefixWhileUnique(s, IsWhitespace, i);
    r := At(s[i..], line);
  }

  // -- next_token --

  /** next_token: after skipping white space, the maximal run of ASCII letters
      and digits (possibly empty) and the cursor behind it; no token, and an
      exhausted cursor, when nothing but white space is left. */
  function NextToken(c: Cursor): (r: (Option<string>, Cursor))
    ensures Follows(c, r.1)
    ensures r.0.None? <==> r.1.Exhausted?
    ensures r.0.None? ==> r.1.line == SkipSpace(c).line
    ensures r.0.Some? ==>
      var s := SkipSpace(c);
      && s.At? && r.1.At?
      && s.text == r.0.value + r.1.text
      && r.1.line == s.line
      && (forall i :: 0 <= i < |r.0.value| ==> IsAlnum(r.0.value[i]))
      && (r.1.text != [] ==> !IsAlnum(r.1.text[0]))
  {
    match SkipSpace(c)
    case Exhausted(line) => (None, Exhausted(line))
    case At(s, line) =>
      if s == [] then (None, Exhausted(line))
      else
        var k := PrefixWhile(s, IsAlnum);
        var token, rest := s[..k], s[k..];
        TokenSplit(s, k, token, rest);
        (Some(Strip(token)), At(rest, line))
  }

  /** Where next_token splits its text: a run of letters and digits, which
      `strip()` leaves alone, and what follows it. */
  lemma TokenSplit(s: string, k: nat, t: string, rest: string)
    requires k == PrefixWhile(s, IsAlnum) && t == s[..k] && rest == s[k..]
    ensures s == t + rest
    ensures forall i :: 0 <= i < |t| ==> IsAlnum(t[i])
    ensures rest != [] ==> !IsAlnum(rest[0])
    ensures Strip(t) == t
  {
    PrefixWhileKeeps(s, IsAlnum);
    assert s == t + rest;
    if k > 0 {
      assert t[0] == s[0] && IsAlnum(s[0]);
      assert t[k - 1] == s[k - 1] && IsAlnum(s[k - 1]);
    }
    StripUnchanged(t);
  }

  /** next_token as the source writes it: skip_space, then an index loop. */
  method NextTokenScan(c: Cursor) returns (r: (Option<string>, Cursor))
    ensures r == NextToken(c)
  {
    var s := SkipSpaceScan(c);
    if s.Exhausted? || s.text == [] {
      return (None, Exhausted(s.line));
    }
    var content, i := s.text, 0;
    while i < |content| && IsAlnum(content[i])
      invariant 0 <= i <= |content|
      invariant forall j :: 0 <= j < i ==> IsAlnum(content[j])
    {
      i := i + 1;
    }
    PrefixWhileUnique(content, IsAlnum, i);
    TokenAt(c, i);
    r := (Some(Strip(content[..i])), At(content[i..], s.line));
  }

  /** next_token once the run of letters and digits is known to end at `k`. */
  lemma TokenAt(c: Cursor, k: nat)
    requires SkipSpace(c).At? && SkipSpace(c).text != []
    requires k == PrefixWhile(SkipSpace(c).text, IsAlnum)
    ensures var s := SkipSpace(c);
      NextToken(c) == (Some(Strip(s.text[..k])), At(s.text[k..], s.line))
  {
  }

  // -- parse_STRING --

  /** parse_STRING: the rest of the current line, stripped, and the cursor
      after its newline, one line further down. Reading past the end of the
      input (`len(None)`) crashes. */
  function ParseString(c: Cursor): (r: Result<(string, Cursor)>)
    ensures r.Ok? <==> c.At?
    ensures r.Err? ==> r.error == Error(Crash, c.line)
    ensures r.Ok? ==> Follows(c, r.value.1) && r.value.1.At? && r.value.1.line == c.line + 1
    ensures r.Ok? ==> '\n' !in r.value.0
  {
    match c
    case Exhausted(line) => Err(Error(Crash, line))
    case At(s, line) =>
      var i := IndexOf(s, '\n');
      ParseStringRest(s);
      Ok((Strip(s[..i]), At(Drop(s, i + 1), line + 1)))
  }

  /** What parse_STRING captures and what it leaves: the text up to the
      first newline, stripped, and everything after that newline; without a
      newline, the whole text and nothing. */
  lemma ParseStringLine(c: Cursor)
    requires c.At?
    ensures ParseString(c).Ok?
    ensures var (v, rest) := ParseString(c).value;
      && |rest.text| <= |c.text|
      && var n := |c.text| - |rest.text|;
         && c.text[n..] == rest.text
         && if '\n' in c.text then
              0 < n && c.text[n - 1] == '\n' && '\n' !in c.text[..n - 1] && v == Strip(c.text[..n - 1])
            else
              rest.text == [] && v == Strip(c.text)
  {
    ParseStringRest(c.text);
  }

  /** The shape of the text parse_STRING consumes: one line and its newline. */
  lemma ParseStringRest(s: string)
    ensures var i := IndexOf(s, '\n');
      var rest := Drop(s, i + 1);
      && '\n' !in Strip(s[..i])
      && |rest| <= |s|
      && var n := |s| - |rest|;
         && s[n..] == rest
         && if '\n' in s then
              0 < n && s[n - 1] == '\n' && '\n' !in s[..n - 1] && Strip(s[..i]) == Strip(s[..n - 1])
            else
              rest == [] && Strip(s[..i]) == Strip(s)
  {
    var i := IndexOf(s, '\n');
    IndexOfBefore(s, '\n');
    assert '\n' !in s[..i];
    StripKeeps(s[..i], '\n');
    if i < |s| {
      LineWithNewline(s, i);
    } else {
      assert s[..i] == s;
    }
  }

  /** The text up to and including the newline at `i`, and the rest. */
  lemma LineWithNewline(s: string, i: nat)
    requires i < |s| && s[i] == '\n'
    ensures var rest := Drop(s, i + 1);
      && |rest| == |s| - (i + 1)
      && s[i + 1..] == rest
  {
  }

  /** parse_STRING as the source writes it: an index loop to the newline. */
  method ParseStringScan(c: Cursor) returns (r: Result<(string, Cursor)>)
    ensures r == ParseString(c)
  {
    if c.Exhausted? {
      return Err(Error(Crash, c.line));
    }
    var content, i := c.text, 0;
    while i < |content| && content[i] != '\n'
      invariant 0 <= i <= |content|
      invariant forall j :: 0 <= j < i ==> content[j] != '\n'
    {
      i := i + 1;
    }
    IndexOfUnique(content, '\n', i);
    r := Ok((Strip(content[..i]), At(Drop(content, i + 1), c.line + 1)));
  }

  /** parse_STRING of a text whose first newline is at `n`. */
  lemma ParseStringAt(s: string, line: int, n: nat)
    requires n < |s| && s[n] == '\n' && '\n' !in s[..n]
    ensures ParseString(At(s, line)) == Ok((Strip(s[..n]), At(s[n + 1..], line + 1)))
  {
    forall i | 0 <= i < n
      ensures s[i] != '\n'
    {
      assert s[..n][i] == s[i];
    }
    IndexOfUnique(s, '\n', n);
  }

  /** A line with nothing for `strip()` to remove, and its newline, is
      captured as it stands. */
  lemma OneLine(v: string, line: int)
    requires '\n' !in v && v != [] && !IsStripSpace(v[0]) && !IsStripSpace(v[|v| - 1])
    ensures ParseString(At(v + "\n", line)) == Ok((v, At([], line + 1)))
  {
    var s := v + "\n";
    assert s[..|v|] == v;
    assert s[|v| + 1..] == [];
    ParseStringAt(s, line, |v|);
    StripUnchanged(v);
  }

  /** parse_STRING of a line followed by more text. */
  lemma OneLineOf(v: string, t: string, line: int)
    requires '\n' !in v
    ensures ParseString(At(v + "\n" + t, line)) == Ok((Strip(v), At(t, line + 1)))
  {
    var s := v + "\n" + t;
    assert s[..|v|] == v;
    assert s[|v|] == '\n';
    assert s[|v| + 1..] == t;
    ParseStringAt(s, line, |v|);
  }

  /** skip_space leaves a text that starts with no white space as it is. */
  lemma NoSpaceSkipped(s: string, line: int)
    requires s != [] && !IsWhitespace(s[0])
    ensures PrefixWhile(s, IsWhitespace) == 0
    ensures SkipSpace(At(s, line)) == At(s, line)
  {
    PrefixWhileUnique(s, IsWhitespace, 0);
    assert s[..0] == [] && s[0..] == s;
  }

  /** A single blank in front of text that starts with no white space. */
  lemma OneSpaceSkipped(s: string, line: int)
    requires s != [] && !IsWhitespace(s[0])
    ensures PrefixWhile(" " + s, IsWhitespace) == 1
    ensures SkipSpace(At(" " + s, line)) == At(s, line)
  {
    var t := " " + s;
    assert t[1..] == s;
    NoSpaceSkipped(s, line);
    assert t[..1] == " ";
    assert Newlines(" ") == 0;
  }

  /** A single newline in front of text that starts with no white space:
      skip_space moves to the next line. */
  lemma NewlineSkipped(s: string, line: int)
    requires s == [] || !IsWhitespace(s[0])
    ensures SkipSpace(At("\n" + s, line)) == At(s, line + 1)
  {
    var t := "\n" + s;
    assert t[1..] == s;
    PrefixWhileUnique(t, IsWhitespace, 1);
    assert t[..1] == "\n";
    assert Newlines("\n") == 1;
  }

  /** A run of letters and digits in front of anything else is read back
      as the token, and the cursor lands right behind it. */
  lemma TokenRoundTrip(k: string, rest: string, line: int)
    requires k != [] && forall i :: 0 <= i < |k| ==> IsAlnum(k[i])
    requires rest != [] ==> !IsAlnum(rest[0])
    ensures NextToken(At(k + rest, line)) == (Some(k), At(rest, line))
  {
    var s := k + rest;
    assert s[0] == k[0];
    NoSpaceSkipped(s, line);
    forall i | 0 <= i < |k|
      ensures IsAlnum(s[i])
    {
      assert s[i] == k[i];
    }
    if rest != [] {
      assert s[|k|] == rest[0];
    }
    PrefixWhileUnique(s, IsAlnum, |k|);
    assert s[..|k|] == k && s[|k|..] == rest;
    StripUnchanged(k);
  }

  /** Nothing but white space is left. */
  predicate Blank(c: Cursor) {
    c.Exhausted? || forall i :: 0 <= i < |c.text| ==> IsWhitespace(c.text[i])
  }

  /** skip_space runs out of text exactly when only white space is left. */
  lemma SkipSpaceBlank(c: Cursor)
    ensures (SkipSpace(c).Exhausted? || SkipSpace(c).text == []) <==> Blank(c)
  {
    var r := SkipSpace(c);
    if r.At? {
      SkipSpaceDropsWhite(c);
    }
    if c.At? && r.At? && r.text != [] {
      var k := |c.text| - |r.text|;
      assert c.text[k] == r.text[0];
    }
  }
}
