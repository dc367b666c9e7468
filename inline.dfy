/** The inline formatting engine of keynotec/parser.py (parse_FORMATTED_STRING):
    a left-to-right scan over one captured line that turns the toggling
    markers `*`, `/`, `_`, `|` into LaTeX groups and resolves backslash
    escapes. The earlier revision keynotec.py has no such engine. */
module Inline {
  import opened Cursors

  /** The four toggling markers: bold, italic, underline, teletype. */
  predicate IsMarker(ch: char) {
    ch == '*' || ch == '/' || ch == '_' || ch == '|'
  }

  /** A character the scan treats specially: a marker or the escape character. */
  predicate IsSpecial(ch: char) {
    IsMarker(ch) || ch == '\\'
  }

  /** No character of `s` is special. */
  predicate Plain(s: string) {
    forall i :: 0 <= i < |s| ==> !IsSpecial(s[i])
  }

  /** The group a marker opens; `}` closes every one of them. */
  function OpenTag(m: char): string
    requires IsMarker(m)
  {
    match m
    case '*' => "\\textbf{"
    case '/' => "\\textit{"
    case '_' => "\\underline{"
    case _ => "\\texttt{"
  }

  /** `p` in front of a successful output; a crash stays a crash. */
  function Prepend(p: string, r: Option<string>): Option<string> {
    match r
    case None => None
    case Some(t) => Some(p + t)
  }

  lemma PrependEmpty(r: Option<string>)
    ensures Prepend([], r) == r
  {
    if r.Some? {
      assert [] + r.value == r.value;
    }
  }

  lemma PrependTwice(p: string, q: string, r: Option<string>)
    ensures Prepend(p, Prepend(q, r)) == Prepend(p + q, r)
  {
    if r.Some? {
      assert p + (q + r.value) == (p + q) + r.value;
    }
  }

  /** One step of the scan: what it writes, how many input characters it
      reads, and which markers are open after it. */
  datatype Step = Step(out: string, len: nat, open: set<char>)

  /** The step the scan takes at the head of `s` while the markers in `open`
      are open; `None` when it crashes on a backslash that ends the line
      (`value[i+1]` is out of range).
      - `\_` stays as it is; `\*`, `\/`, `\|`, `\\` lose the backslash and
        the character after it passes unchanged; a backslash before any
        other character stays, and so does that character;
      - an open marker becomes `}`; a closed one becomes its opening tag, and
        the character right after it is passed over by the scan, so it
        reaches the output as it is, even when it is a marker or a backslash. */
  function ScanStep(s: string, open: set<char>): (r: Option<Step>)
    requires s != []
    ensures r.Some? ==> 1 <= r.value.len <= |s|
  {
    if s[0] == '\\' then
      if |s| == 1 then None
      else if s[1] == '_' then Some(Step(s[..2], 2, open))
      else if IsSpecial(s[1]) then Some(Step([s[1]], 2, open))
      else Some(Step(s[..2], 2, open))
    else if IsMarker(s[0]) then
      if s[0] in open then Some(Step("}", 1, open - {s[0]}))
      else if |s| == 1 then Some(Step(OpenTag(s[0]), 1, open + {s[0]}))
      else Some(Step(OpenTag(s[0]) + [s[1]], 2, open + {s[0]}))
    else Some(Step([s[0]], 1, open))
  }

  /** What the scan makes of the input `s` while the markers in `open` are
      open: the outputs of its steps one after the other, or `None` if a
      step crashes. */
  function Format(s: string, open: set<char>): Option<string>
    decreases |s|
  {
    if s == [] then Some([])
    else
      match ScanStep(s, open)
      case None => None
      case Some(st) => Prepend(st.out, Format(s[st.len..], st.open))
  }

  /** parse_FORMATTED_STRING: one line captured by parse_STRING, formatted
      with all four markers closed. A crash of the scan is reported at the
      line after the captured one. */
  function ParseFormattedString(c: Cursor): (r: Result<(string, Cursor)>)
    ensures r.Ok? ==> Follows(c, r.value.1)
    ensures r.Ok? <==> ParseString(c).Ok? && Format(ParseString(c).value.0, {}).Some?
    ensures r.Ok? ==> r.value.1 == ParseString(c).value.1
    ensures r.Err? ==> r.error.kind == Crash
  {
    var (value, rest) :- ParseString(c);
    match Format(value, {})
    case None => Err(Error(Crash, rest.line))
    case Some(f) => Ok((f, rest))
  }

  /** The part of `value` the scan has finished with at index `i`. */
  function Done(value: string, i: nat): string {
    if i <= |value| then value[..i] else value
  }

  /** What the scan will have produced once it finishes, when it stands at
      index `i` of `value` with the markers in `open` open. */
  function Pending(value: string, i: nat, open: set<char>): Option<string> {
    Prepend(Done(value, i), Format(Drop(value, i), open))
  }

  /** parse_FORMATTED_STRING as the source writes it: `value` is rewritten in
      place while `i` walks over it, and `open` holds the markers whose
      status flag in the `formatters` dictionary is set. */
  method ParseFormattedStringScan(c: Cursor) returns (r: Result<(string, Cursor)>)
    ensures r == ParseFormattedString(c)
  {
    var captured := ParseStringScan(c);
    if captured.Err? {
      return Err(captured.error);
    }
    var line, rest := captured.value.0, captured.value.1;
    var value, i, open := line, 0, {};
    PendingAtStart(line);
    while i < |value|
      invariant 0 <= i <= |value| + 1
      invariant Format(line, {}) == Pending(value, i, open)
      decreases |value| + 1 - i
    {
      var crashed;
      crashed, value, i, open := ScanAt(value, i, open);
      if crashed {
        return Err(Error(Crash, rest.line));
      }
    }
    PendingAtEnd(value, i, open);
    r := Ok((value, rest));
  }

  /** One pass of the body of the scan loop at index `i`: the rewrite it
      makes to `value`, where it moves `i`, and the marker it toggles; or
      `crashed` when it reads past the end of the line. */
  method ScanAt(value: string, i: nat, open: set<char>)
      returns (crashed: bool, value': string, i': nat, open': set<char>)
    requires i < |value|
    ensures crashed ==> Pending(value, i, open) == None
    ensures !crashed ==> Pending(value', i', open') == Pending(value, i, open)
    ensures !crashed ==> i' <= |value'| + 1 && |value'| - i' < |value| - i
  {
    crashed := false;
    if value[i] == '\\' {
      if i + 1 == |value| {
        PendingTrailingBackslash(value, i, open);
        return true, value, i, open;
      }
      if IsSpecial(value[i + 1]) && value[i + 1] != '_' {
        value', i', open' := value[..i] + value[i + 1..], i + 1, open;
        PendingDroppedEscape(value, i, open, value', i');
      } else {
        value', i', open' := value, i + 2, open;
        PendingKeptEscape(value, i, open, i');
      }
    } else if IsMarker(value[i]) {
      var key := value[i];
      if key in open {
        value', i', open' := value[..i] + "}" + value[i + 1..], i + 1, open - {key};
        PendingClosing(value, i, open, value', i', open');
      } else {
        var text := OpenTag(key);
        value', i', open' := value[..i] + text + value[i + 1..], i + |text| + 1, open + {key};
        PendingOpening(value, i, open, text, value', i', open');
      }
    } else {
      value', i', open' := value, i + 1, open;
      PendingPlain(value, i, open, i');
    }
  }

  // -- one iteration of the in-place scan at a time --

  lemma PendingAtStart(value: string)
    ensures Pending(value, 0, {}) == Format(value, {})
  {
    assert Drop(value, 0) == value && Done(value, 0) == [];
    PrependEmpty(Format(value, {}));
  }

  lemma PendingAtEnd(value: string, i: nat, open: set<char>)
    requires i >= |value|
    ensures Pending(value, i, open) == Some(value)
  {
    assert Drop(value, i) == [] && Done(value, i) + [] == value;
  }

  lemma PendingTrailingBackslash(value: string, i: nat, open: set<char>)
    requires i + 1 == |value| && value[i] == '\\'
    ensures Pending(value, i, open) == None
  {
    var todo := Drop(value, i);
    assert todo == "\\";
  }

  lemma PendingPlain(value: string, i: nat, open: set<char>, i': nat)
    requires i < |value| && !IsSpecial(value[i]) && i' == i + 1
    ensures Pending(value, i', open) == Pending(value, i, open)
    ensures i' <= |value| + 1 && |value| - i' < |value| - i
  {
    var todo := Drop(value, i);
    assert todo[0] == value[i];
    FormatPlainHead(todo, open);
    PrependTwice(value[..i], [todo[0]], Format(todo[1..], open));
    assert value[..i + 1] == value[..i] + [todo[0]];
    assert Drop(value, i + 1) == todo[1..];
  }

  lemma PendingKeptEscape(value: string, i: nat, open: set<char>, i': nat)
    requires i + 1 < |value| && value[i] == '\\'
    requires value[i + 1] == '_' || !IsSpecial(value[i + 1])
    requires i' == i + 2
    ensures Pending(value, i', open) == Pending(value, i, open)
    ensures i' <= |value| + 1 && |value| - i' < |value| - i
  {
    var todo := Drop(value, i);
    assert todo[0] == value[i] && todo[1] == value[i + 1];
    FormatKeptEscapeHead(todo, open);
    PrependTwice(value[..i], todo[..2], Format(todo[2..], open));
    assert value[..i + 2] == value[..i] + todo[..2];
    assert Drop(value, i + 2) == todo[2..];
  }

  lemma PendingDroppedEscape(value: string, i: nat, open: set<char>, v: string, i': nat)
    requires i + 1 < |value| && value[i] == '\\'
    requires IsSpecial(value[i + 1]) && value[i + 1] != '_'
    requires v == value[..i] + value[i + 1..] && i' == i + 1
    ensures Pending(v, i', open) == Pending(value, i, open)
    ensures i' <= |v| + 1 && |v| - i' < |value| - i
  {
    var todo := Drop(value, i);
    assert todo[0] == value[i] && todo[1] == value[i + 1];
    FormatEscapeHead(todo, open);
    PrependTwice(value[..i], [todo[1]], Format(todo[2..], open));
    assert v[..i + 1] == value[..i] + [todo[1]];
    assert Drop(v, i + 1) == todo[2..];
  }

  lemma PendingClosing(value: string, i: nat, open: set<char>, v: string, i': nat, open': set<char>)
    requires i < |value| && IsMarker(value[i]) && value[i] in open
    requires v == value[..i] + "}" + value[i + 1..] && i' == i + 1 && open' == open - {value[i]}
    ensures Pending(v, i', open') == Pending(value, i, open)
    ensures i' <= |v| + 1 && |v| - i' < |value| - i
  {
    var todo := Drop(value, i);
    assert todo[0] == value[i];
    FormatClosingHead(todo, open);
    PrependTwice(value[..i], "}", Format(todo[1..], open - {value[i]}));
    assert v[..i + 1] == value[..i] + "}";
    assert Drop(v, i + 1) == todo[1..];
  }

  lemma PendingOpening(value: string, i: nat, open: set<char>, text: string, v: string, i': nat, open': set<char>)
    requires i < |value| && IsMarker(value[i]) && value[i] !in open && text == OpenTag(value[i])
    requires v == value[..i] + text + value[i + 1..] && i' == i + |text| + 1 && open' == open + {value[i]}
    ensures Pending(v, i', open') == Pending(value, i, open)
    ensures i' <= |v| + 1 && |v| - i' < |value| - i
  {
    var todo := Drop(value, i);
    var key := value[i];
    assert todo[0] == key;
    if i + 1 < |value| {
      assert todo[1] == value[i + 1];
      FormatOpeningHead(todo, open);
      PrependTwice(value[..i], text + [todo[1]], Format(todo[2..], open + {key}));
      assert v[..i + |text| + 1] == value[..i] + (text + [todo[1]]);
      assert Drop(v, i + |text| + 1) == todo[2..];
    } else {
      assert todo == [key];
      FormatOpeningLast(todo, open);
      assert v == value[..i] + text;
      assert Done(v, i + |text| + 1) == v && Drop(v, i + |text| + 1) == [];
      assert v + [] == v;
    }
  }

  // -- one step of the scan at a time --

  lemma FormatPlainHead(s: string, open: set<char>)
    requires s != [] && !IsSpecial(s[0])
    ensures Format(s, open) == Prepend([s[0]], Format(s[1..], open))
  {
  }

  lemma FormatClosingHead(s: string, open: set<char>)
    requires s != [] && IsMarker(s[0]) && s[0] in open
    ensures Format(s, open) == Prepend("}", Format(s[1..], open - {s[0]}))
  {
  }

  lemma FormatOpeningHead(s: string, open: set<char>)
    requires |s| >= 2 && IsMarker(s[0]) && s[0] !in open
    ensures Format(s, open) == Prepend(OpenTag(s[0]) + [s[1]], Format(s[2..], open + {s[0]}))
  {
  }

  lemma FormatOpeningLast(s: string, open: set<char>)
    requires |s| == 1 && IsMarker(s[0]) && s[0] !in open
    ensures Format(s, open) == Some(OpenTag(s[0]))
  {
    assert s[1..] == [];
    assert OpenTag(s[0]) + [] == OpenTag(s[0]);
  }

  lemma FormatEscapeHead(s: string, open: set<char>)
    requires |s| >= 2 && s[0] == '\\' && IsSpecial(s[1]) && s[1] != '_'
    ensures Format(s, open) == Prepend([s[1]], Format(s[2..], open))
  {
  }

  lemma FormatKeptEscapeHead(s: string, open: set<char>)
    requires |s| >= 2 && s[0] == '\\' && (s[1] == '_' || !IsSpecial(s[1]))
    ensures Format(s, open) == Prepend(s[..2], Format(s[2..], open))
  {
  }

  lemma PlainTail(t: string)
    requires Plain(t) && t != []
    ensures Plain(t[1..]) && !IsSpecial(t[0])
  {
    assert forall i :: 0 <= i < |t[1..]| ==> t[1..][i] == t[i + 1];
  }

  // -- the same steps on inputs written as concatenations --

  lemma Assoc(a: string, b: string, c: string)
    ensures a + b + c == a + (b + c)
  {
  }

  lemma ConsSplit(p: string, x: string)
    requires p != []
    ensures (p + x)[0] == p[0] && (p + x)[1..] == p[1..] + x && [p[0]] + p[1..] == p
  {
  }

  lemma EscapeStep(n: char, x: string, open: set<char>)
    requires IsSpecial(n) && n != '_'
    ensures Format(['\\', n] + x, open) == Prepend([n], Format(x, open))
  {
    var s := ['\\', n] + x;
    assert s[0] == '\\' && s[1] == n && s[2..] == x;
    FormatEscapeHead(s, open);
  }

  lemma KeptEscapeStep(n: char, x: string, open: set<char>)
    requires n == '_' || !IsSpecial(n)
    ensures Format(['\\', n] + x, open) == Prepend(['\\', n], Format(x, open))
  {
    var s := ['\\', n] + x;
    assert s[0] == '\\' && s[1] == n && s[..2] == ['\\', n] && s[2..] == x;
    FormatKeptEscapeHead(s, open);
  }

  lemma ClosingStep(m: char, x: string, open: set<char>)
    requires IsMarker(m) && m in open
    ensures Format([m] + x, open) == Prepend("}", Format(x, open - {m}))
  {
    var s := [m] + x;
    assert s[0] == m && s[1..] == x;
    FormatClosingHead(s, open);
  }

  lemma OpeningStep(m: char, n: char, x: string, open: set<char>)
    requires IsMarker(m) && m !in open
    ensures Format([m, n] + x, open) == Prepend(OpenTag(m) + [n], Format(x, open + {m}))
  {
    var s := [m, n] + x;
    assert s[0] == m && s[1] == n && s[2..] == x;
    FormatOpeningHead(s, open);
  }

  // -- properties of the engine --

  /** A plain prefix passes through the scan unchanged and leaves the set of
      open markers as it was: the scan of `p + x` is `p` followed by the scan
      of `x`. */
  lemma {:induction false} PlainPrefix(p: string, x: string, open: set<char>)
    requires Plain(p)
    ensures Format(p + x, open) == Prepend(p, Format(x, open))
  {
    if p == [] {
      assert p + x == x;
      PrependEmpty(Format(x, open));
    } else {
      ConsSplit(p, x);
      PlainTail(p);
      FormatPlainHead(p + x, open);
      PlainPrefix(p[1..], x, open);
      PrependTwice([p[0]], p[1..], Format(x, open));
    }
  }

  /** A line with none of `* / _ | \\` comes out unchanged, whatever is open. */
  lemma PlainTextUnchanged(s: string, open: set<char>)
    requires Plain(s)
    ensures Format(s, open) == Some(s)
  {
    PlainPrefix(s, [], open);
    assert s + [] == s;
  }

  /** `\\*`, `\\/`, `\\|` and `\\\\` amid plain text: the backslash goes, the
      character stays, and nothing toggles. */
  lemma EscapesAreLiteral(p: string, m: char, q: string, open: set<char>)
    requires Plain(p) && Plain(q)
    requires m == '*' || m == '/' || m == '|' || m == '\\'
    ensures Format(p + ['\\', m] + q, open) == Some(p + [m] + q)
  {
    EscapeStep(m, q, open);
    PlainTextUnchanged(q, open);
    PlainPrefix(p, ['\\', m] + q, open);
    Assoc(p, ['\\', m], q);
    Assoc(p, [m], q);
  }

  /** `\\_` amid plain text is kept as it is, backslash included. */
  lemma EscapedUnderscoreKept(p: string, q: string, open: set<char>)
    requires Plain(p) && Plain(q)
    ensures Format(p + "\\_" + q, open) == Some(p + "\\_" + q)
  {
    KeptEscapeStep('_', q, open);
    PlainTextUnchanged(q, open);
    PlainPrefix(p, "\\_" + q, open);
    Assoc(p, "\\_", q);
  }

  /** An open marker after plain text closes its group. */
  lemma ClosingAfterPlain(t: string, m: char, q: string, open: set<char>)
    requires Plain(t) && Plain(q) && IsMarker(m) && m in open
    ensures Format(t + [m] + q, open) == Some(t + "}" + q)
  {
    ClosingStep(m, q, open);
    PlainTextUnchanged(q, open - {m});
    PlainPrefix(t, [m] + q, open);
    Assoc(t, [m], q);
    Assoc(t, "}", q);
  }

  /** A marked span amid plain text, `p m t m q`, opens once and closes once:
      `*bold*` becomes `\\textbf{bold}`, and nothing stays open after it. */
  lemma SpanIsGrouped(p: string, m: char, t: string, q: string, open: set<char>)
    requires Plain(p) && Plain(t) && Plain(q) && t != []
    requires IsMarker(m) && m !in open
    ensures Format(p + [m] + t + [m] + q, open) == Some(p + OpenTag(m) + t + "}" + q)
  {
    var u := t[1..];
    PlainTail(t);
    OpeningStep(m, t[0], u + [m] + q, open);
    ClosingAfterPlain(u, m, q, open + {m});
    PlainPrefix(p, [m, t[0]] + (u + [m] + q), open);
    SpanSplit(p, m, t, q);
    SpanRegroup(p, OpenTag(m), t, q);
  }

  lemma SpanSplit(p: string, m: char, t: string, q: string)
    requires t != []
    ensures p + [m] + t + [m] + q == p + ([m, t[0]] + (t[1..] + [m] + q))
  {
    assert [m] + t == [m, t[0]] + t[1..];
  }

  lemma SpanRegroup(p: string, tag: string, t: string, q: string)
    requires t != []
    ensures p + (tag + [t[0]] + (t[1..] + "}" + q)) == p + tag + t + "}" + q
  {
    assert [t[0]] + t[1..] == t;
  }

  /** The character right after an opening marker is skipped by the scan: a
      marker or backslash there is copied as it is instead of toggling or
      escaping (`**` gives `\\textbf{*`). */
  lemma CharAfterOpeningIsCopied(m: char, n: char, q: string)
    requires IsMarker(m) && IsSpecial(n) && Plain(q)
    ensures Format([m, n] + q, {}) == Some(OpenTag(m) + [n] + q)
  {
    OpeningStep(m, n, q, {});
    PlainTextUnchanged(q, {} + {m});
  }

  /** A backslash that ends the line crashes the scan. */
  lemma TrailingBackslashCrashes(p: string, open: set<char>)
    requires Plain(p)
    ensures Format(p + "\\", open) == None
  {
    PlainPrefix(p, "\\", open);
  }

  /** A captured line without any of `* / _ | \` is returned exactly as
      parse_STRING returns it. */
  lemma PlainLineUnchanged(c: Cursor)
    requires ParseString(c).Ok? && Plain(ParseString(c).value.0)
    ensures ParseFormattedString(c) == ParseString(c)
  {
    PlainTextUnchanged(ParseString(c).value.0, {});
  }

  // -- the two revisions --

  /** The two revisions of the parser: keynotec/parser.py, and the earlier
      keynotec.py, which has neither slide transitions nor inline formatting. */
  datatype Revision = Current | Early

  /** How titles, citations and item texts capture the rest of their line:
      parse_FORMATTED_STRING in the current revision, plain parse_STRING in
      the earlier one. Either way the cursor ends up where parse_STRING
      leaves it, and the only failure is a crash. */
  function Capture(rev: Revision, c: Cursor): (r: Result<(string, Cursor)>)
    ensures r.Ok? ==> ParseString(c).Ok? && r.value.1 == ParseString(c).value.1
    ensures r.Err? ==> r.error.kind == Crash
  {
    match rev
    case Current => ParseFormattedString(c)
    case Early => ParseString(c)
  }

  /** Both revisions capture a line without any of `* / _ | \` alike. */
  lemma CapturePlain(rev: Revision, c: Cursor)
    requires ParseString(c).Ok? && Plain(ParseString(c).value.0)
    ensures Capture(rev, c) == ParseString(c)
  {
    PlainLineUnchanged(c);
  }

  /** The earlier revision keeps inline markers: `*bold*` amid plain text is
      captured as it stands, where the current revision makes it a group. */
  lemma MarkersKeptByEarly(p: string, m: char, t: string, q: string, line: int)
    requires Plain(p) && Plain(t) && Plain(q) && t != [] && IsMarker(m)
    requires '\n' !in p && '\n' !in t && '\n' !in q && p != [] && q != []
    requires !IsStripSpace(p[0]) && !IsStripSpace(q[|q| - 1])
    ensures var c := At(p + [m] + t + [m] + q + "\n", line);
      && Capture(Early, c) == Ok((p + [m] + t + [m] + q, At([], line + 1)))
      && Capture(Current, c) == Ok((p + OpenTag(m) + t + "}" + q, At([], line + 1)))
  {
    var v := p + [m] + t + [m] + q;
    assert v[0] == p[0] && v[|v| - 1] == q[|q| - 1];
    OneLine(v, line);
    SpanIsGrouped(p, m, t, q, {});
  }
}
