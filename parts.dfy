/** The pieces slides are made of: parse_image, parse_title, optional_title,
    parse_cite and parse_code_block of keynotec/parser.py. The earlier
    keynotec.py has the same functions, except that titles and citations are
    captured as plain text (see `Capture`). */
module Parts {
  import opened Cursors
  import opened Inline

  // -- parse_image --

  /** parse_image: `[path]` right at the cursor, with no white space skipped.
      No image, and the cursor unchanged, when the first character is not
      `[`; otherwise the path runs to the first `]` and the cursor moves
      behind that `]` on the same line. Without a `]` the image is open at
      the end of the file. An empty or exhausted cursor crashes. */
  function ParseImage(c: Cursor): (r: Result<(Option<string>, Cursor)>)
    ensures r.Ok? ==> Follows(c, r.value.1) && r.value.1.line == c.line
    ensures r.Ok? && r.value.0.None? ==> r.value.1 == c
    ensures r.Ok? && r.value.0.Some? ==> r.value.1.At? && Remaining(r.value.1) < Remaining(c)
  {
    match c
    case Exhausted(line) => Err(Error(Crash, line))
    case At(s, line) =>
      if s == [] then Err(Error(Crash, line))
      else if s[0] != '[' then Ok((None, c))
      else
        var i := IndexOf(s, ']');
        if i == |s| then Err(Error(ImageOpenAtEnd, line))
        else Ok((Some(s[1..i]), At(s[i + 1..], line)))
  }

  /** parse_image as the source writes it: an index loop to the `]`. */
  method ParseImageScan(c: Cursor) returns (r: Result<(Option<string>, Cursor)>)
    ensures r == ParseImage(c)
  {
    if c.Exhausted? || c.text == [] {
      return Err(Error(Crash, c.line));
    }
    var content, line := c.text, c.line;
    if content[0] != '[' {
      return Ok((None, c));
    }
    var i := 0;
    while i < |content| && content[i] != ']'
      invariant 0 <= i <= |content|
      invariant forall j :: 0 <= j < i ==> content[j] != ']'
    {
      i := i + 1;
    }
    IndexOfUnique(content, ']', i);
    if i == |content| {
      return Err(Error(ImageOpenAtEnd, line));
    }
    r := Ok((Some(content[1..i]), At(content[i + 1..], line)));
  }

  /** A bracketed path is read back as it was written, and the cursor lands
      right behind it. */
  lemma ImageRoundTrip(path: string, rest: string, line: int)
    requires ']' !in path
    ensures ParseImage(At("[" + path + "]" + rest, line)) == Ok((Some(path), At(rest, line)))
  {
    var s := "[" + path + "]" + rest;
    assert s[0] == '[';
    forall j | 0 <= j < |path| + 1
      ensures s[j] != ']'
    {
      if j > 0 {
        assert s[j] == path[j - 1];
      }
    }
    assert s[|path| + 1] == ']';
    IndexOfUnique(s, ']', |path| + 1);
    assert s[1..|path| + 1] == path;
    assert s[|path| + 2..] == rest;
  }

  /** Every image read is a bracketed path with no `]` inside: the inverse
      of `ImageRoundTrip`. */
  lemma ImageIsBracketed(c: Cursor, path: string, rest: Cursor)
    requires ParseImage(c) == Ok((Some(path), rest))
    ensures c.At? && rest.At? && ']' !in path
    ensures c.text == "[" + path + "]" + rest.text
  {
    var s := c.text;
    var i := IndexOf(s, ']');
    IndexOfBefore(s, ']');
    assert s == [s[0]] + s[1..i] + [s[i]] + s[i + 1..];
  }

  /** An image fails exactly when its `[` has no `]` after it. */
  lemma ImageOpenAtEndIff(s: string, line: int)
    ensures ParseImage(At(s, line)) == Err(Error(ImageOpenAtEnd, line))
        <==> s != [] && s[0] == '[' && ']' !in s
  {
  }

  // -- parse_title, optional_title --

  /** parse_title: after skipping white space, a `#`, a blank or tab, and the
      rest of the line as the title. No title, and the cursor as it was
      before the white space, when the first character is not `#`; a `#`
      followed by anything but a blank or tab is an error, a `#` alone at
      the end of the input gives an empty title. The current revision applies
      inline formatting to the title. */
  function ParseTitle(rev: Revision, c: Cursor): (r: Result<(Option<string>, Cursor)>)
    ensures r.Ok? ==> Follows(c, r.value.1)
    ensures r.Ok? && r.value.0.None? ==> r.value.1 == c
    ensures r.Ok? && r.value.0.Some? ==> r.value.1.At? && r.value.1.line > c.line
  {
    var s := SkipSpace(c);
    if s.Exhausted? || s.text == [] then Err(Error(Crash, s.line))
    else if s.text[0] != '#' then Ok((None, c))
    else HashTitle(rev, s.text, s.line)
  }

  /** The title behind a `#` at the head of `s`. */
  function HashTitle(rev: Revision, s: string, line: int): (r: Result<(Option<string>, Cursor)>)
    requires s != [] && s[0] == '#'
    ensures r.Ok? ==> r.value.0.Some? && r.value.1.At? && r.value.1.line == line + 1
    ensures r.Ok? ==> Remaining(r.value.1) < |s| + 1
  {
    if |s| > 1 && s[1] != ' ' && s[1] != '\t' then Err(Error(ExpectedSpaceAfterHash, line))
    else Titled(Capture(rev, At(Drop(s, 2), line)))
  }

  /** A captured line as a title. */
  function Titled(captured: Result<(string, Cursor)>): (r: Result<(Option<string>, Cursor)>)
    ensures r.Ok? <==> captured.Ok?
    ensures r.Ok? ==> r.value == (Some(captured.value.0), captured.value.1)
    ensures r.Err? ==> r.error == captured.error
  {
    match captured
    case Err(e) => Err(e)
    case Ok((title, rest)) => Ok((Some(title), rest))
  }

  /** optional_title: the title, or "" without one. */
  function OptionalTitle(rev: Revision, c: Cursor): (r: Result<(string, Cursor)>)
    ensures r.Ok? ==> Follows(c, r.value.1)
    ensures r.Ok? <==> ParseTitle(rev, c).Ok?
    ensures r.Ok? && ParseTitle(rev, c).value.0.None? ==> r.value == ("", c)
    ensures r.Ok? && ParseTitle(rev, c).value.0.Some? ==> r.value.0 == ParseTitle(rev, c).value.0.value
  {
    var (title, rest) :- ParseTitle(rev, c);
    Ok((if title.None? then "" else title.value, rest))
  }

  /** A line that does not start with `#` is no title and is left unread. */
  lemma NoHashNoTitle(rev: Revision, c: Cursor)
    requires SkipSpace(c).At? && SkipSpace(c).text != [] && SkipSpace(c).text[0] != '#'
    ensures ParseTitle(rev, c) == Ok((None, c))
  {
  }

  /** `# ` and a line with nothing to strip or format is that line as the title. */
  lemma TitleLine(rev: Revision, t: string, line: int)
    requires Plain(t) && '\n' !in t && t != [] && !IsStripSpace(t[0]) && !IsStripSpace(t[|t| - 1])
    ensures ParseTitle(rev, At("# " + t + "\n", line)) == Ok((Some(t), At([], line + 1)))
  {
    var s := "# " + t + "\n";
    assert s[0] == '#';
    HashFirst(rev, s, line);
    HashTitleLine(rev, t, line);
  }

  /** `# ` and a title line, then whatever follows it on the next lines. */
  lemma TitleLineThen(rev: Revision, t: string, rest: string, line: int)
    requires Plain(t) && '\n' !in t && t != [] && !IsStripSpace(t[0]) && !IsStripSpace(t[|t| - 1])
    ensures ParseTitle(rev, At("# " + t + "\n" + rest, line)) == Ok((Some(t), At(rest, line + 1)))
  {
    var s := "# " + t + "\n" + rest;
    assert s[0] == '#';
    HashFirst(rev, s, line);
    HashTitleThen(rev, t, rest, line);
  }

  lemma HashTitleThen(rev: Revision, t: string, rest: string, line: int)
    requires Plain(t) && '\n' !in t && t != [] && !IsStripSpace(t[0]) && !IsStripSpace(t[|t| - 1])
    ensures HashTitle(rev, "# " + t + "\n" + rest, line) == Ok((Some(t), At(rest, line + 1)))
  {
    var s := "# " + t + "\n" + rest;
    assert s[1] == ' ';
    assert Drop(s, 2) == t + "\n" + rest;
    OneLineOf(t, rest, line);
    StripUnchanged(t);
    CapturePlain(rev, At(t + "\n" + rest, line));
  }

  /** A line that starts with `#` has no white space to skip. */
  lemma HashFirst(rev: Revision, s: string, line: int)
    requires s != [] && s[0] == '#'
    ensures ParseTitle(rev, At(s, line)) == HashTitle(rev, s, line)
  {
    NoSpaceSkipped(s, line);
  }

  lemma HashTitleLine(rev: Revision, t: string, line: int)
    requires Plain(t) && '\n' !in t && t != [] && !IsStripSpace(t[0]) && !IsStripSpace(t[|t| - 1])
    ensures HashTitle(rev, "# " + t + "\n", line) == Ok((Some(t), At([], line + 1)))
  {
    var s := "# " + t + "\n";
    assert s[1] == ' ';
    assert Drop(s, 2) == t + "\n";
    OneLine(t, line);
    CapturePlain(rev, At(t + "\n", line));
  }

  // -- parse_cite --

  /** parse_cite: after skipping white space, two characters of which at
      least one is `-` (the check only fails when neither of the first two
      is), then the rest of the line as the author. Fewer than two
      characters is an error; an exhausted cursor crashes. */
  function ParseCite(rev: Revision, c: Cursor): (r: Result<(string, Cursor)>)
    ensures r.Ok? ==> Follows(c, r.value.1) && r.value.1.At? && r.value.1.line > c.line
  {
    var s := SkipSpace(c);
    if s.Exhausted? then Err(Error(Crash, s.line))
    else if |s.text| < 2 then Err(Error(ExpectedCitationAuthor, s.line))
    else if s.text[0] != '-' && s.text[1] != '-' then Err(Error(ExpectedDashes, s.line))
    else Capture(rev, At(s.text[2..], s.line))
  }

  /** The dash check accepts a single dash in either of the first two places. */
  lemma CiteNeedsOneDash(rev: Revision, s: string, line: int)
    requires |s| >= 2 && !IsWhitespace(s[0])
    ensures ParseCite(rev, At(s, line)).Err? && ParseCite(rev, At(s, line)).error.kind == ExpectedDashes
        <==> s[0] != '-' && s[1] != '-'
  {
    PrefixWhileUnique(s, IsWhitespace, 0);
    assert s[0..] == s && s[..0] == [];
  }

  // -- parse_code_block --

  /** A code fence "```" starts at index `j` of `t`. */
  predicate IsFence(t: string, j: nat) {
    j + 3 <= |t| && t[j..j + 3] == "```"
  }

  /** Where parse_code_block's loop stops in `t`, starting from `i`: at the
      first "```" that begins before the last three characters, or at the
      last three characters (the start of `t` if it is shorter). */
  function FenceEnd(t: string, i: nat): (k: nat)
    requires i <= |t|
    ensures i <= k <= |t|
    ensures k + 3 >= |t| || IsFence(t, k)
    ensures k == i || k + 2 < |t|
    ensures forall j: nat :: i <= j < k ==> !IsFence(t, j)
    decreases |t| - i
  {
    if i + 3 >= |t| || IsFence(t, i) then i else FenceEnd(t, i + 1)
  }

  /** The loop's stopping point is unique. */
  lemma FenceEndUnique(t: string, i: nat, k: nat)
    requires i <= k <= |t|
    requires k + 3 >= |t| || IsFence(t, k)
    requires k == i || k + 2 < |t|
    requires forall j: nat :: i <= j < k ==> !IsFence(t, j)
    ensures k == FenceEnd(t, i)
    decreases k - i
  {
    if i < k {
      FenceEndUnique(t, i + 1, k);
    }
  }

  /** parse_code_block: "```", the language on the rest of that line, then
      the code up to the next "```" and the cursor behind that fence. The
      code is kept verbatim. The line number counts the newlines in the code
      and adds one more than the newline ending the language line. A missing
      closing fence is no error: the last three characters are dropped as if
      they were one. A cursor that does not start with "```" is an error;
      an exhausted one crashes. */
  function ParseCodeBlock(c: Cursor): (r: Result<((string, string), Cursor)>)
    ensures r.Ok? ==> Follows(c, r.value.1)
    ensures r.Err? ==> c.At? ==> r.error == Error(ExpectedFence, c.line)
  {
    match c
    case Exhausted(line) => Err(Error(Crash, line))
    case At(s, line) =>
      if |s| < 3 || s[..3] != "```" then Err(Error(ExpectedFence, line))
      else Ok(CodeBlockAfterFence(s, line))
  }

  /** The language, the code and the cursor behind a block that starts
      with a fence. */
  function CodeBlockAfterFence(s: string, line: int): (r: ((string, string), Cursor))
    requires |s| >= 3
    ensures r.1.At? && r.1.line >= line + 2 && |r.1.text| < |s|
  {
    var lc := CodeLanguage(s, line);
    CodeAfter(lc.0, lc.1.text, lc.1.line)
  }

  /** The language line of a code block: parse_STRING after the fence. */
  function CodeLanguage(s: string, line: int): (r: (string, Cursor))
    requires |s| >= 3
    ensures r.1.At? && r.1.line == line + 1 && |r.1.text| < |s|
  {
    ParseString(At(s[3..], line)).value
  }

  /** The code in `t`, which follows the language line ending on `line - 1`,
      and the cursor behind its closing fence. */
  function CodeAfter(lang: string, t: string, line: int): (r: ((string, string), Cursor))
    ensures r.1.At? && r.1.line >= line + 1 && |r.1.text| <= |t|
  {
    var i := FenceEnd(t, 0);
    ((lang, t[..i]), At(Drop(t, i + 3), line + 1 + Newlines(t[..i])))
  }

  /** parse_code_block as the source writes it: an index loop that looks
      for the closing fence and counts lines. */
  method ParseCodeBlockScan(c: Cursor) returns (r: Result<((string, string), Cursor)>)
    ensures r == ParseCodeBlock(c)
  {
    if c.Exhausted? {
      return Err(Error(Crash, c.line));
    }
    var s := c.text;
    if |s| < 3 || s[..3] != "```" {
      return Err(Error(ExpectedFence, c.line));
    }
    var lc := CodeLanguage(s, c.line);
    var block := CodeScan(lc.0, lc.1.text, lc.1.line);
    r := Ok(block);
  }

  /** The part of parse_code_block behind the language line. */
  method CodeScan(lang: string, t: string, line0: int) returns (block: ((string, string), Cursor))
    ensures block == CodeAfter(lang, t, line0)
  {
    var i, line := FenceScan(t, line0 + 1);
    block := ((lang, t[..i]), At(Drop(t, i + 3), line));
    CodeAfterFence(lang, t, line0, i, t[..i], Drop(t, i + 3));
  }

  /** The loop of parse_code_block: it stops where `FenceEnd` says and
      counts the newlines it passes over. */
  method FenceScan(content: string, line0: int) returns (i: nat, line: int)
    ensures i == FenceEnd(content, 0)
    ensures line == line0 + Newlines(content[..i])
  {
    i, line := 0, line0;
    while i + 3 < |content| && !IsFence(content, i)
      invariant i <= |content|
      invariant FenceEnd(content, 0) == FenceEnd(content, i)
      invariant line == line0 + Newlines(content[..i])
    {
      NewlinesStep(content, i);
      if content[i] == '\n' {
        line := line + 1;
      }
      i := i + 1;
    }
  }

  /** A text that holds a code block fails exactly when it does not start
      with a fence, and then with the line it starts on. */
  lemma FenceRequired(s: string, line: int)
    ensures ParseCodeBlock(At(s, line)).Err? <==> |s| < 3 || s[..3] != "```"
    ensures ParseCodeBlock(At(s, line)).Err? ==> ParseCodeBlock(At(s, line)).error == Error(ExpectedFence, line)
  {
  }

  /** A code block is read back verbatim, whatever markers it holds; the
      line number behind it counts one line more than the block has. */
  lemma CodeRoundTrip(lang: string, code: string, rest: string, line: int)
    requires '\n' !in lang && '`' !in code
    ensures ParseCodeBlock(At("```" + lang + "\n" + code + "```" + rest, line))
         == Ok(((Strip(lang), code), At(rest, line + 2 + Newlines(code))))
  {
    var s := "```" + lang + "\n" + code + "```" + rest;
    var t := code + "```" + rest;
    assert s == "```" + lang + "\n" + t;
    FenceLine(lang, t, line);
    FenceAfter(code, rest);
    CodeBlockFrom(s, line, Strip(lang), t, code, rest);
  }

  /** A code block whose language line, code and closing fence are known. */
  lemma CodeBlockFrom(s: string, line: int, lang: string, t: string, code: string, rest: string)
    requires |s| >= 3 && s[..3] == "```" && CodeLanguage(s, line) == (lang, At(t, line + 1))
    requires FenceEnd(t, 0) == |code| && code == t[..|code|] && rest == Drop(t, |code| + 3)
    ensures ParseCodeBlock(At(s, line)) == Ok(((lang, code), At(rest, line + 2 + Newlines(code))))
  {
    CodeAfterFence(lang, t, line + 1, |code|, code, rest);
  }

  /** The code and the rest once the fence scan's stopping point is known. */
  lemma CodeAfterFence(lang: string, t: string, line: int, k: nat, code: string, rest: string)
    requires k == FenceEnd(t, 0) && code == t[..k] && rest == Drop(t, k + 3)
    ensures CodeAfter(lang, t, line) == ((lang, code), At(rest, line + 1 + Newlines(code)))
  {
  }

  /** Without a closing fence the block still goes through: its last three
      characters are dropped, whatever they are, as if they were the fence,
      and nothing is left. */
  lemma MissingFence(lang: string, code: string, last: string, line: int)
    requires '\n' !in lang && '`' !in code && |last| == 3
    ensures ParseCodeBlock(At("```" + lang + "\n" + code + last, line))
         == Ok(((Strip(lang), code), At([], line + 2 + Newlines(code))))
  {
    var t := code + last;
    assert "```" + lang + "\n" + code + last == "```" + lang + "\n" + t;
    FenceLine(lang, t, line);
    NoFenceBefore(code, last);
    CodeBlockFrom("```" + lang + "\n" + t, line, Strip(lang), t, code, []);
  }

  /** The opening fence and the language line in front of `t`. */
  lemma FenceLine(lang: string, t: string, line: int)
    requires '\n' !in lang
    ensures var s := "```" + lang + "\n" + t;
      |s| >= 3 && s[..3] == "```" && CodeLanguage(s, line) == (Strip(lang), At(t, line + 1))
  {
    var s := "```" + lang + "\n" + t;
    assert s[3..] == lang + "\n" + t;
    OneLineOf(lang, t, line);
  }

  /** Code without backquotes and three more characters: the scan stops
      in front of those three. */
  lemma NoFenceBefore(code: string, last: string)
    requires '`' !in code && |last| == 3
    ensures var t := code + last;
      FenceEnd(t, 0) == |code| && t[..|code|] == code && Drop(t, |code| + 3) == []
  {
    var t := code + last;
    forall j: nat | j < |code|
      ensures !IsFence(t, j)
    {
      assert t[j] == code[j];
      assert t[j..j + 3][0] == t[j];
    }
    FenceEndUnique(t, 0, |code|);
    assert t[..|code|] == code;
  }

  /** The loop stops at the fence that closes code without backquotes. */
  lemma FenceAfter(code: string, rest: string)
    requires '`' !in code
    ensures var t := code + "```" + rest;
      FenceEnd(t, 0) == |code| && t[..|code|] == code && Drop(t, |code| + 3) == rest
  {
    var t := code + "```" + rest;
    assert t[|code|..|code| + 3] == "```";
    forall j: nat | j < |code|
      ensures !IsFence(t, j)
    {
      assert t[j] == code[j];
      assert t[j..j + 3][0] == t[j];
    }
    FenceEndUnique(t, 0, |code|);
    assert t[..|code|] == code;
    assert t[|code| + 3..] == rest;
  }
}
