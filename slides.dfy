/** One slide: parse_slide, parse_transition, parse_slide_type and the nine
    parse_slide_* productions of keynotec/parser.py. The earlier keynotec.py
    has the same productions and a parse_slide that knows no transitions. */
module Slides {
  import opened Cursors
  import opened Inline
  import opened Items
  import opened Parts

  // -- parse_transition --

  /** A transition: its name and, when one is written, its duration as the
      digits and dots that the parser hands to `float()`. */
  datatype Transition = Transition(name: string, duration: Option<string>)

  /** The characters the transition name runs over. */
  predicate IsNameChar(ch: char) {
    !IsWhitespace(ch) && ch != ',' && ch != ')'
  }

  predicate IsName(s: string) {
    forall i :: 0 <= i < |s| ==> IsNameChar(s[i])
  }

  /** The characters the duration runs over. */
  predicate IsNumberChar(ch: char) {
    IsDigit(ch) || ch == '.'
  }

  /** A duration `float()` accepts: a digit, then digits and at most one dot. */
  predicate IsNumber(s: string) {
    && s != [] && IsDigit(s[0])
    && (forall i :: 0 <= i < |s| ==> IsNumberChar(s[i]))
    && Dots(s) <= 1
  }

  function Dots(s: string): nat {
    multiset(s)['.']
  }

  /** parse_transition: `:` and, after white space, `(name[,] [duration])`.
      Without a `(` there is no transition and the cursor is left where it
      was; without any text the cursor is exhausted. A first character other
      than `:` is an error. */
  function ParseTransition(c: Cursor): (r: Result<(Option<Transition>, Cursor)>)
    ensures r.Ok? ==> Follows(c, r.value.1)
    ensures r.Ok? && r.value.0.None? ==> r.value.1.line == c.line && (r.value.1.At? ==> r.value.1 == c)
    ensures r.Ok? && r.value.0.Some? ==> r.value.1.At? && Remaining(r.value.1) < Remaining(c)
    ensures r.Ok? && r.value.0.Some? ==> IsName(r.value.0.value.name)
    ensures r.Ok? && r.value.0.Some? && r.value.0.value.duration.Some? ==> IsNumber(r.value.0.value.duration.value)
    ensures r.Err? ==> r.error.kind in {ExpectedColon, ExpectedCloseParen, Crash}
  {
    match c
    case Exhausted(_) => Ok((None, c))
    case At(s, line) =>
      if s == [] then Ok((None, Exhausted(line)))
      else if s[0] != ':' then Err(Error(ExpectedColon, line))
      else
        var a := SkipSpace(At(s[1..], line));
        if a.Exhausted? || a.text == [] then Err(Error(Crash, a.line))
        else if a.text[0] != '(' then Ok((None, c))
        else TransitionAfterParen(a.text, a.line)
  }

  /** The transition behind its `(`: the name up to white space, `,` or `)`,
      an optional `,`, an optional duration and the closing `)`. Running off
      the end of the text crashes. */
  function TransitionAfterParen(t: string, line: int): (r: Result<(Option<Transition>, Cursor)>)
    requires t != [] && t[0] == '('
    ensures r.Ok? ==> r.value.0.Some? && r.value.1.At? && r.value.1.line >= line && |r.value.1.text| < |t|
    ensures r.Ok? ==> IsName(r.value.0.value.name)
    ensures r.Ok? && r.value.0.value.duration.Some? ==> IsNumber(r.value.0.value.duration.value)
    ensures r.Err? ==> r.error.kind in {ExpectedCloseParen, Crash}
  {
    var i := 1 + PrefixWhile(t[1..], IsNameChar);
    NameRun(t);
    if i == |t| then Err(Error(Crash, line))
    else AfterName(t[1..i], t[i..], line)
  }

  /** The name runs over name characters only. */
  lemma NameRun(t: string)
    requires t != []
    ensures var i := 1 + PrefixWhile(t[1..], IsNameChar);
      i <= |t| && IsName(t[1..i])
  {
    var u := t[1..];
    var k := PrefixWhile(u, IsNameChar);
    PrefixWhileKeeps(u, IsNameChar);
    assert t[1..1 + k] == u[..k];
  }

  /** What follows the name `name`: white space, an optional `,`, an
      optional duration and the closing `)`. */
  function AfterName(name: string, u: string, line: int): (r: Result<(Option<Transition>, Cursor)>)
    requires u != [] && IsName(name)
    ensures r.Ok? ==> r.value.0.Some? && r.value.1.At? && r.value.1.line >= line && |r.value.1.text| < |u|
    ensures r.Ok? ==> r.value.0.value.name == name
    ensures r.Ok? && r.value.0.value.duration.Some? ==> IsNumber(r.value.0.value.duration.value)
    ensures r.Err? ==> r.error.kind in {ExpectedCloseParen, Crash}
  {
    var b := SkipSpace(At(u, line));
    if b.text == [] then Err(Error(Crash, b.line))
    else
      var d := if b.text[0] == ',' then SkipSpace(At(b.text[1..], b.line)) else b;
      if d.Exhausted? || d.text == [] then Err(Error(Crash, d.line))
      else Closing(name, ParseDuration(d.text, d.line))
  }

  /** The closing `)` behind the duration read, if any. */
  function Closing(name: string, duration: Result<(Option<string>, Cursor)>): (r: Result<(Option<Transition>, Cursor)>)
    requires duration.Ok? ==> duration.value.1.At?
    ensures r.Ok? ==> duration.Ok? && r.value.0 == Some(Transition(name, duration.value.0))
    ensures r.Ok? ==> r.value.1.At? && r.value.1.line == duration.value.1.line
    ensures r.Ok? ==> |r.value.1.text| < |duration.value.1.text|
    ensures r.Err? && duration.Err? ==> r.error == duration.error
    ensures r.Err? && duration.Ok? ==> r.error.kind in {ExpectedCloseParen, Crash}
  {
    var (d, e) :- duration;
    if e.text == [] then Err(Error(Crash, e.line))
    else if e.text[0] != ')' then Err(Error(ExpectedCloseParen, e.line))
    else Ok((Some(Transition(name, d)), At(e.text[1..], e.line)))
  }

  /** The optional duration at the head of `s`: digits and dots, then white
      space. No duration unless `s` starts with a digit. A run of digits and
      dots that reaches the end of the text crashes, and so does one with
      more than one dot (`float()` refuses it). */
  function ParseDuration(s: string, line: int): (r: Result<(Option<string>, Cursor)>)
    requires s != []
    ensures r.Ok? ==> r.value.1.At? && r.value.1.line >= line && |r.value.1.text| <= |s|
    ensures r.Ok? && r.value.0.None? ==> r.value.1 == At(s, line)
    ensures r.Ok? && r.value.0.Some? ==> IsNumber(r.value.0.value)
    ensures r.Err? ==> r.error.kind == Crash
  {
    if !IsDigit(s[0]) then Ok((None, At(s, line)))
    else
      NumberRun(s);
      NumberUpTo(s, 1 + PrefixWhile(s[1..], IsNumberChar), line)
  }

  /** The duration `s[..j]` read by the loop, then white space. */
  function NumberUpTo(s: string, j: nat, line: int): (r: Result<(Option<string>, Cursor)>)
    requires 0 < j <= |s| && IsDigit(s[0]) && forall i :: 1 <= i < j ==> IsNumberChar(s[i])
    ensures r.Ok? ==> r.value.1.At? && r.value.1.line >= line && |r.value.1.text| < |s|
    ensures r.Ok? ==> r.value.0.Some? && IsNumber(r.value.0.value)
    ensures r.Err? ==> r.error.kind == Crash
  {
    if j == |s| || Dots(s[..j]) > 1 then Err(Error(Crash, line))
    else Ok((Some(s[..j]), SkipSpace(At(s[j..], line))))
  }

  /** The duration runs over digits and dots only. */
  lemma NumberRun(s: string)
    requires s != []
    ensures var j := 1 + PrefixWhile(s[1..], IsNumberChar);
      j <= |s| && forall i :: 1 <= i < j ==> IsNumberChar(s[i])
  {
    var u := s[1..];
    var k := PrefixWhile(u, IsNumberChar);
    PrefixWhileKeeps(u, IsNumberChar);
    forall i | 1 <= i < 1 + k
      ensures IsNumberChar(s[i])
    {
      assert s[i] == u[i - 1];
    }
  }

  /** parse_transition's two index loops, as the source writes them. */
  method TransitionAfterParenScan(t: string, line: int) returns (r: Result<(Option<Transition>, Cursor)>)
    requires t != [] && t[0] == '('
    ensures r == TransitionAfterParen(t, line)
  {
    var i := RunScan(t, IsNameChar);
    NameRun(t);
    if i == |t| {
      r := Err(Error(Crash, line));
    } else {
      r := AfterNameScan(t[1..i], t[i..], line);
    }
  }

  method AfterNameScan(name: string, u: string, line: int) returns (r: Result<(Option<Transition>, Cursor)>)
    requires u != [] && IsName(name)
    ensures r == AfterName(name, u, line)
  {
    var b := SkipSpace(At(u, line));
    if b.text == [] {
      return Err(Error(Crash, b.line));
    }
    var d := b;
    if b.text[0] == ',' {
      d := SkipSpace(At(b.text[1..], b.line));
    }
    if d.Exhausted? || d.text == [] {
      return Err(Error(Crash, d.line));
    }
    var duration := ParseDurationScan(d.text, d.line);
    r := Closing(name, duration);
  }

  method ParseDurationScan(s: string, line: int) returns (r: Result<(Option<string>, Cursor)>)
    requires s != []
    ensures r == ParseDuration(s, line)
  {
    if !IsDigit(s[0]) {
      return Ok((None, At(s, line)));
    }
    var j := RunScan(s, IsNumberChar);
    NumberRun(s);
    if j == |s| || Dots(s[..j]) > 1 {
      return Err(Error(Crash, line));
    }
    var rest := SkipSpaceScan(At(s[j..], line));
    r := Ok((Some(s[..j]), rest));
  }

  /** `i = 1; while keep(s[i]): i += 1`, stopped at the end of `s`. */
  method RunScan(s: string, keep: char -> bool) returns (i: nat)
    requires s != []
    ensures i == 1 + PrefixWhile(s[1..], keep)
  {
    i := 1;
    while i < |s| && keep(s[i])
      invariant 1 <= i <= |s|
      invariant forall j :: 1 <= j < i ==> keep(s[j])
    {
      i := i + 1;
    }
    RunEnd(s, keep, i);
  }

  lemma RunEnd(s: string, keep: char -> bool, i: nat)
    requires 1 <= i <= |s|
    requires forall j :: 1 <= j < i ==> keep(s[j])
    requires i < |s| ==> !keep(s[i])
    ensures i == 1 + PrefixWhile(s[1..], keep)
  {
    var u := s[1..];
    forall j | 0 <= j < i - 1
      ensures keep(u[j])
    {
      assert u[j] == s[j + 1];
    }
    if i < |s| {
      assert u[i - 1] == s[i];
    }
    PrefixWhileUnique(u, keep, i - 1);
  }

  /** The transitions parse_slide knows: the Beamer command and the
      direction, written as `str()` writes the number. */
  const Transitions: map<string, (string, string)> := map[
    "dissolve" := ("\\transdissolve", "0"),
    "pushright" := ("\\transcover", "0"),
    "pushleft" := ("\\transcover", "180"),
    "covertop" := ("\\transcover", "90"),
    "coverbottom" := ("\\transcover", "270")
  ]

  const BackgroundCanvas := "\\addtobeamertemplate{background canvas}"

  /** A slide with a transition: the slide put in a group behind the
      background-canvas template and the transition command. The duration
      is not an argument: it never reaches the output. An unknown name is an
      error reported at `line`, the line after the slide. */
  function Wrap(name: string, slide: string, line: int): (r: Result<string>)
    ensures r.Ok? <==> name in Transitions
    ensures r.Err? ==> r.error == Error(InvalidTransition(name), line)
    ensures r.Ok? ==> r.value == TransitionFrame(Transitions[name].0, Transitions[name].1, slide)
    ensures r.Ok? ==> var n := |r.value|;
      && n > |slide| + 1
      && r.value[0] == '{' && r.value[n - 1] == '}'
      && r.value[n - 1 - |slide|..n - 1] == slide
  {
    if name !in Transitions then Err(Error(InvalidTransition(name), line))
    else
      var (effect, direction) := Transitions[name];
      Ok(TransitionFrame(effect, direction, slide))
  }

  /** A slide inside the background-canvas template that plays the effect
      in the given direction. */
  function TransitionFrame(effect: string, direction: string, slide: string): string {
    "{" + BackgroundCanvas + "{" + effect + "[direction=" + direction + "]}" + "{}" + slide + "}"
  }

  // -- parse_slide_type --

  /** parse_slide_type: after white space, `:` and the rest of the line as
      the slide type. No type, and an exhausted cursor, when only white space
      is left; any other first character is an error. */
  function ParseSlideType(c: Cursor): (r: Result<(Option<string>, Cursor)>)
    ensures r.Ok? ==> Follows(c, r.value.1)
    ensures r.Ok? && r.value.0.None? ==> r.value.1.Exhausted?
    ensures r.Ok? && r.value.0.Some? ==> r.value.1.At? && Remaining(r.value.1) < Remaining(c) && r.value.1.line > c.line
    ensures r.Ok? && r.value.0.Some? ==> '\n' !in r.value.0.value
    ensures r.Err? ==> r.error == Error(ExpectedColon, SkipSpace(c).line)
  {
    var s := SkipSpace(c);
    if s.Exhausted? || s.text == [] then Ok((None, Exhausted(s.line)))
    else if s.text[0] != ':' then Err(Error(ExpectedColon, s.line))
    else TypeLine(s.text, s.line)
  }

  /** The slide type on the line behind `:`. */
  function TypeLine(s: string, line: int): (r: Result<(Option<string>, Cursor)>)
    requires s != []
    ensures r.Ok? && r.value.0.Some? && r.value.1.At? && r.value.1.line == line + 1
    ensures |r.value.1.text| < |s| && '\n' !in r.value.0.value
  {
    var (name, rest) := ParseString(At(s[1..], line)).value;
    Ok((Some(name), rest))
  }

  /** There is no slide type exactly when only white space is left. */
  lemma NoTypeIffBlank(c: Cursor)
    ensures ParseSlideType(c).Ok? && ParseSlideType(c).value.0.None? <==> Blank(c)
  {
    SkipSpaceBlank(c);
  }

  // -- the nine slide types --

  datatype Kind =
    | CoverPage | BigTitle | Citation | BigImage | TwoImages | FourImages
    | CodeListing | ItemsOnly | ItemsAndImage

  /** The keyword of each slide type. */
  function KindName(k: Kind): string {
    match k
    case CoverPage => "coverpage"
    case BigTitle => "bigtitle"
    case Citation => "citation"
    case BigImage => "bigimage"
    case TwoImages => "twoimages"
    case FourImages => "fourimages"
    case CodeListing => "code"
    case ItemsOnly => "items"
    case ItemsAndImage => "items+image"
  }

  const KindNames: set<string> := {
    "coverpage", "bigtitle", "citation", "bigimage", "twoimages",
    "fourimages", "code", "items", "items+image"
  }

  /** parse_slide's dispatch table: the slide type a keyword names. */
  function KindOf(name: string): (r: Option<Kind>)
    ensures r.Some? ==> KindName(r.value) == name && name in KindNames
    ensures r.Some? ==> (r.value == CodeListing <==> name == "code")
  {
    if name == "coverpage" then Some(CoverPage)
    else if name == "bigtitle" then Some(BigTitle)
    else if name == "citation" then Some(Citation)
    else if name == "bigimage" then Some(BigImage)
    else if name == "twoimages" then Some(TwoImages)
    else if name == "fourimages" then Some(FourImages)
    else if name == "code" then Some(CodeListing)
    else if name == "items" then Some(ItemsOnly)
    else if name == "items+image" then Some(ItemsAndImage)
    else None
  }

  /** Every slide type is found under its keyword, and the keywords are
      exactly the nine names of the table. */
  lemma KindTable(k: Kind, name: string)
    ensures KindOf(KindName(k)) == Some(k)
    ensures KindOf(name).Some? <==> name in KindNames
  {
  }

  /** What a slide production makes: the LaTeX text, the plugin it adds
      (only the code slide adds one), and the cursor behind the slide. */
  datatype Made = Made(text: string, plugin: Option<string>, rest: Cursor)

  /** The production for slide type `k`. */
  function Body(rev: Revision, k: Kind, c: Cursor): (r: Result<Made>)
    ensures r.Ok? ==> Follows(c, r.value.rest)
    ensures r.Ok? ==> (r.value.plugin.Some? <==> k == CodeListing)
    ensures r.Ok? && r.value.plugin.Some? ==> IsListing(r.value.plugin.value)
  {
    match k
    case CoverPage => Ok(Made("\\coverframe", None, c))
    case BigTitle => BigTitleBody(rev, c)
    case Citation => CitationBody(rev, c)
    case BigImage => BigImageBody(c)
    case TwoImages => TwoImagesBody(c)
    case FourImages => FourImagesBody(c)
    case CodeListing => CodeBody(rev, c)
    case ItemsOnly => ItemsBody(rev, c)
    case ItemsAndImage => ItemsImageBody(rev, c)
  }

  /** parse_slide_bigtitle: a title is required. */
  function BigTitleBody(rev: Revision, c: Cursor): (r: Result<Made>)
    ensures r.Ok? ==> Follows(c, r.value.rest) && r.value.plugin.None?
  {
    var (title, rest) :- ParseTitle(rev, c);
    if title.None? then Err(Error(ExpectedHash, rest.line))
    else Ok(Made("\\bigtitle{" + title.value + "}", None, rest))
  }

  /** parse_slide_citation: an optional title and the author. Without a
      title, Python's `format` writes `None` in its place. */
  function CitationBody(rev: Revision, c: Cursor): (r: Result<Made>)
    ensures r.Ok? ==> Follows(c, r.value.rest) && r.value.plugin.None?
  {
    var (title, c1) :- ParseTitle(rev, c);
    var (author, c2) :- ParseCite(rev, c1);
    Ok(Made(CitationFrame(if title.None? then "None" else title.value, author), None, c2))
  }

  /** The LaTeX of a citation slide. */
  function CitationFrame(quote: string, author: string): string {
    "\\citation{" + quote + "}{" + author + "}"
  }

  /** parse_slide_bigimage: one image, right at the cursor. */
  function BigImageBody(c: Cursor): (r: Result<Made>)
    ensures r.Ok? ==> Follows(c, r.value.rest) && r.value.plugin.None?
  {
    var (image, rest) :- ParseImage(c);
    if image.None? then Err(Error(ExpectedImage, rest.line))
    else Ok(Made("\\bigimage{" + image.value + "}", None, rest))
  }

  /** parse_slide_twoimages: an image, white space, an image. */
  function TwoImagesBody(c: Cursor): (r: Result<Made>)
    ensures r.Ok? ==> Follows(c, r.value.rest) && r.value.plugin.None?
  {
    var (left, c1) :- ParseImage(c);
    if left.None? then Err(Error(ExpectedImage, c1.line))
    else
      var (right, c2) :- ParseImage(SkipSpace(c1));
      if right.None? then Err(Error(ExpectedImage, c2.line))
      else Ok(Made("\\twoimages{" + left.value + "}{" + right.value + "}", None, c2))
  }

  /** `n` images, each followed by white space, as parse_slide_fourimages'
      loop reads them. */
  function Images(c: Cursor, n: nat): (r: Result<(seq<string>, Cursor)>)
    ensures r.Ok? ==> |r.value.0| == n && Follows(c, r.value.1)
    decreases n
  {
    if n == 0 then Ok(([], c))
    else
      var (image, c1) :- NextImage(c);
      var (rest, c2) :- Images(c1, n - 1);
      Ok(([image] + rest, c2))
  }

  /** One slot of the loop: an image that must be there, then white space. */
  function NextImage(c: Cursor): (r: Result<(string, Cursor)>)
    ensures r.Ok? ==> Follows(c, r.value.1)
  {
    var (image, c1) :- ParseImage(c);
    if image.None? then Err(Error(ExpectedImage, c1.line))
    else Ok((image.value, SkipSpace(c1)))
  }

  /** The number of images of a fourimages slide. */
  const ImageSlots: nat := 4

  function FourImagesText(images: seq<string>): string
    requires |images| == ImageSlots
  {
    "\\fourimages{" + images[0] + "}{" + images[1] + "}{" + images[2] + "}{" + images[3] + "}"
  }

  /** parse_slide_fourimages. */
  function FourImagesBody(c: Cursor): (r: Result<Made>)
    ensures r.Ok? ==> Follows(c, r.value.rest) && r.value.plugin.None?
  {
    var (images, rest) :- Images(c, ImageSlots);
    Ok(Made(FourImagesText(images), None, rest))
  }

  /** `p` in front of the images of a loop that went through; a failure stays. */
  function Prefixed(p: seq<string>, r: Result<(seq<string>, Cursor)>): Result<(seq<string>, Cursor)> {
    if r.Err? then r else Ok((p + r.value.0, r.value.1))
  }

  /** parse_slide_fourimages as the source writes it: a `for` loop that
      fills a list of four. */
  method FourImagesScan(c: Cursor) returns (r: Result<Made>)
    ensures r == FourImagesBody(c)
  {
    var images := ImagesScan(c, ImageSlots);
    if images.Err? {
      return Err(images.error);
    }
    r := Ok(Made(FourImagesText(images.value.0), None, images.value.1));
  }

  /** `[''] * n`: a list of `n` empty slots. */
  function Slots(n: nat): (r: seq<string>)
    ensures |r| == n
  {
    if n == 0 then [] else Slots(n - 1) + [""]
  }

  /** The loop of parse_slide_fourimages over `n` slots of a list. */
  method ImagesScan(c: Cursor, n: nat) returns (r: Result<(seq<string>, Cursor)>)
    ensures r == Images(c, n)
  {
    var images := Slots(n);
    var cur := c;
    ImagesStart(c, n, images);
    var i: nat, left: nat := 0, n;
    while i < n
      invariant i <= n && i + left == n && |images| == n
      invariant OnTrack(c, n, images[..i], cur, left)
    {
      var step := NextImageScan(cur);
      if step.Err? {
        ImagesFail(c, n, images[..i], cur, left);
        return Err(step.error);
      }
      ghost var (before, from, i0, left0) := (images, cur, i, left);
      images := images[i := step.value.0];
      cur := step.value.1;
      i := i + 1;
      left := left - 1;
      ImagesNext(c, n, before, from, i0, left0, images, i, left);
    }
    ImagesDone(c, n, images, i, cur, left);
    r := Ok((images, cur));
  }

  /** The body of the loop of parse_slide_fourimages. */
  method NextImageScan(c: Cursor) returns (r: Result<(string, Cursor)>)
    ensures r == NextImage(c)
  {
    var read := ParseImageScan(c);
    if read.Err? {
      return Err(read.error);
    }
    var (image, c1) := read.value;
    if image.None? {
      return Err(Error(ExpectedImage, c1.line));
    }
    var c2 := SkipSpaceScan(c1);
    r := Ok((image.value, c2));
  }

  /** After `done` was read, the images still to come start at `cur`. */
  predicate OnTrack(c: Cursor, n: nat, done: seq<string>, cur: Cursor, k: nat) {
    Images(c, n) == Prefixed(done, Images(cur, k))
  }

  lemma PrefixedEmpty(r: Result<(seq<string>, Cursor)>)
    ensures Prefixed([], r) == r
  {
    if r.Ok? {
      assert [] + r.value.0 == r.value.0;
    }
  }

  lemma ImagesStart(c: Cursor, n: nat, images: seq<string>)
    ensures OnTrack(c, n, images[..0], c, n)
  {
    assert images[..0] == [];
    PrefixedEmpty(Images(c, n));
  }

  lemma ImagesDone(c: Cursor, n: nat, images: seq<string>, i: nat, cur: Cursor, left: nat)
    requires |images| == n == i && left == 0 && OnTrack(c, n, images[..i], cur, left)
    ensures Images(c, n) == Ok((images, cur))
  {
    assert images[..i] + [] == images;
  }

  /** One more image read, written into slot `i0`: the loop moves from
      (`before`, `cur`, `i0`, `left0`) to (`images`, the cursor after the
      image, `i`, `left`). */
  lemma ImagesNext(c: Cursor, n: nat, before: seq<string>, cur: Cursor, i0: nat, left0: nat,
                   images: seq<string>, i: nat, left: nat)
    requires i0 < |before| && NextImage(cur).Ok?
    requires OnTrack(c, n, before[..i0], cur, left0)
    requires images == before[i0 := NextImage(cur).value.0]
    requires i == i0 + 1 && left0 == left + 1
    ensures OnTrack(c, n, images[..i], NextImage(cur).value.1, left)
  {
    var (image, next) := NextImage(cur).value;
    SlotFilled(before, i0, image, images, i);
    ImagesStep(cur, left + 1);
    PrefixedTwice(before[..i0], [image], Images(next, left));
  }

  /** Writing slot `i0` extends the filled prefix by one. */
  lemma SlotFilled(before: seq<string>, i0: nat, image: string, images: seq<string>, i: nat)
    requires i0 < |before| && images == before[i0 := image] && i == i0 + 1
    ensures images[..i] == before[..i0] + [image]
  {
  }

  /** Unfolding `Images` once. */
  lemma ImagesStep(c: Cursor, n: nat)
    requires n > 0 && NextImage(c).Ok?
    ensures Images(c, n) == Prefixed([NextImage(c).value.0], Images(NextImage(c).value.1, n - 1))
  {
  }

  lemma PrefixedTwice(a: seq<string>, b: seq<string>, r: Result<(seq<string>, Cursor)>)
    ensures Prefixed(a, Prefixed(b, r)) == Prefixed(a + b, r)
  {
    if r.Ok? {
      assert a + (b + r.value.0) == a + b + r.value.0;
    }
  }

  /** A failed image read ends the loop with that failure. */
  lemma ImagesFail(c: Cursor, n: nat, done: seq<string>, cur: Cursor, k: nat)
    requires k > 0 && OnTrack(c, n, done, cur, k) && NextImage(cur).Err?
    ensures Images(c, n) == Err(NextImage(cur).error)
  {
  }

  /** The LaTeX of a code slide: a fragile frame around a `lang`
      environment holding the code. */
  function CodeFrame(title: string, lang: string, code: string): string {
    "\\begin{frame}[fragile]\n        \\frametitle{" + title + "}\n"
    + "\\begin{" + lang + "}\n" + code + "\n\\end{" + lang + "}"
    + "\n\\end{frame}\n    "
  }

  /** parse_slide_code: an optional title, white space, the code block; the
      slide needs the listings plugin of the block's language. */
  function CodeBody(rev: Revision, c: Cursor): (r: Result<Made>)
    ensures r.Ok? ==> Follows(c, r.value.rest)
    ensures r.Ok? ==> r.value.plugin.Some? && IsListing(r.value.plugin.value)
  {
    var (title, c1) :- OptionalTitle(rev, c);
    var ((lang, code), c2) :- ParseCodeBlock(SkipSpace(c1));
    Ok(Made(CodeFrame(title, lang, code), Some("listings/" + lang), c2))
  }

  /** A plugin entry `listings/<lang>`. */
  predicate IsListing(plugin: string) {
    |plugin| >= 9 && plugin[..9] == "listings/"
  }

  /** The LaTeX of an items slide. */
  function ItemsFrame(title: string, items: string): string {
    "\\begin{frame}\n\\frametitle{" + title + "}\n               " + items + "\n\\end{frame}\n"
  }

  /** parse_slide_items: an optional title and an item list, then white
      space. A list process_items cannot write (it pops an empty stack)
      crashes. */
  function ItemsBody(rev: Revision, c: Cursor): (r: Result<Made>)
    ensures r.Ok? ==> Follows(c, r.value.rest) && r.value.plugin.None?
  {
    var (title, c1) :- OptionalTitle(rev, c);
    var (list, c2) :- ParseItems(rev, c1);
    match ItemsText(list)
    case None => Err(Error(Crash, c2.line))
    case Some(text) => Ok(Made(ItemsFrame(title, text), None, SkipSpace(c2)))
  }

  /** The cursor on the line after the current one: the loop of
      parse_slide_itemimage after a leading image. No newline crashes. */
  function NextLine(c: Cursor): (r: Result<Cursor>)
    ensures r.Ok? ==> c.At? && r.value.At? && r.value.line == c.line + 1 && |r.value.text| < |c.text|
    ensures r.Err? ==> r.error == Error(Crash, c.line)
  {
    match c
    case Exhausted(line) => Err(Error(Crash, line))
    case At(s, line) =>
      var i := IndexOf(s, '\n');
      if i == |s| then Err(Error(Crash, line)) else Ok(At(s[i + 1..], line + 1))
  }

  /** That loop as the source writes it. */
  method NextLineScan(c: Cursor) returns (r: Result<Cursor>)
    ensures r == NextLine(c)
  {
    if c.Exhausted? {
      return Err(Error(Crash, c.line));
    }
    var content, i := c.text, 0;
    while i < |content| && content[i] != '\n'
      invariant 0 <= i <= |content|
      invariant forall j :: 0 <= j < i ==> content[j] != '\n'
    {
      i := i + 1;
    }
    IndexOfUnique(content, '\n', i);
    if i == |content| {
      return Err(Error(Crash, c.line));
    }
    r := Ok(At(content[i + 1..], c.line + 1));
  }

  /** One column of an items+image slide. The current revision sizes the
      image column 0.4 and the items column 0.55 of the paper width; the
      earlier one sizes both 0.45. */
  function Column(rev: Revision, size: string, content: string): string {
    match rev
    case Current => "\n        \\begin{column}{" + size + "\\paperwidth}" + content + "\\end{column}\n    "
    case Early => "\\begin{column}{0.45\\paperwidth}" + content + "\\end{column}"
  }

  function ImageBox(rev: Revision, path: string): string {
    var width := if rev == Current then ".4" else ".45";
    "\n        \\begin{center}\n        {\\includegraphics[width=" + width
    + "\\paperwidth, height=.75\\paperheight,\n        keepaspectratio]{" + path
    + "}}\n        \\end{center}\n    "
  }

  /** The LaTeX of an items+image slide: the image column first when the
      image came first. */
  function ItemsImageFrame(rev: Revision, title: string, left: bool, path: string, items: string): string {
    var image := Column(rev, "0.4", ImageBox(rev, path));
    var list := Column(rev, "0.55", items);
    "\\begin{frame}\n               \\frametitle{" + title + "}"
    + "\\begin{columns}" + (if left then image + list else list + image) + "\\end{columns}"
    + "\n\\end{frame}\n"
  }

  /** parse_slide_itemimage: an optional title, then either an image (and
      the rest of its line skipped) and an item list, or an item list, white
      space and an image. */
  function ItemsImageBody(rev: Revision, c: Cursor): (r: Result<Made>)
    ensures r.Ok? ==> Follows(c, r.value.rest) && r.value.plugin.None?
  {
    var (title, c1) :- OptionalTitle(rev, c);
    var (image, c2) :- ParseImage(c1);
    if image.Some? then ImageLeft(rev, title, image.value, c2)
    else ImageRight(rev, title, c2)
  }

  /** The image first: the rest of its line is skipped, then the items. */
  function ImageLeft(rev: Revision, title: string, image: string, c: Cursor): (r: Result<Made>)
    ensures r.Ok? ==> Follows(c, r.value.rest) && r.value.plugin.None?
  {
    var c1 :- NextLine(c);
    var (list, c2) :- ParseItems(rev, c1);
    ItemsImageMade(rev, title, true, image, list, c2)
  }

  /** The items first, then white space and the image, which must be there. */
  function ImageRight(rev: Revision, title: string, c: Cursor): (r: Result<Made>)
    ensures r.Ok? ==> Follows(c, r.value.rest) && r.value.plugin.None?
  {
    var (list, c1) :- ParseItems(rev, c);
    var (image, c2) :- ParseImage(SkipSpace(c1));
    if image.None? then Err(Error(ExpectedItemsImage, c2.line))
    else ItemsImageMade(rev, title, false, image.value, list, c2)
  }

  function ItemsImageMade(rev: Revision, title: string, left: bool, image: string,
                          list: ItemList, rest: Cursor): (r: Result<Made>)
    ensures r.Ok? ==> r.value.rest == rest && r.value.plugin.None?
    ensures r.Err? ==> r.error == Error(Crash, rest.line)
  {
    match ItemsText(list)
    case None => Err(Error(Crash, rest.line))
    case Some(text) => Ok(Made(ItemsImageFrame(rev, title, left, image, text), None, rest))
  }

  // -- parse_slide --

  /** A slide as the keynote keeps it: the type keyword and the LaTeX. */
  datatype Slide = Slide(kind: string, text: string)

  /** A parsed slide and the plugin it needs. */
  datatype Parsed = Parsed(slide: Slide, plugin: Option<string>)

  /** What parse_slide promises of a slide it made: the type is one of the
      nine keywords, and a plugin, a `listings/` entry, comes with code
      slides and with no other. */
  predicate WellMade(p: Parsed) {
    && p.slide.kind in KindNames
    && (p.plugin.Some? <==> p.slide.kind == "code")
    && (p.plugin.Some? ==> IsListing(p.plugin.value))
  }

  /** parse_slide. The current revision skips white space and reads an
      optional transition first, and wraps the slide in it; the earlier
      revision goes straight to the slide type. No slide when no type is
      left. */
  function ParseSlide(rev: Revision, c: Cursor): (r: Result<(Option<Parsed>, Cursor)>)
    ensures r.Ok? ==> Follows(c, r.value.1)
    ensures r.Ok? && r.value.0.Some? ==> Remaining(r.value.1) < Remaining(c) && WellMade(r.value.0.value)
    ensures r.Ok? && r.value.0.None? ==> r.value.1.Exhausted?
  {
    match rev
    case Early => SlideAfter(Early, None, c)
    case Current =>
      var (transition, c1) :- ParseTransition(SkipSpace(c));
      SlideAfter(Current, if transition.None? then None else Some(transition.value.name), c1)
  }

  /** The slide type, then the slide it names with the transition named
      `transition` around it. */
  function SlideAfter(rev: Revision, transition: Option<string>, c: Cursor): (r: Result<(Option<Parsed>, Cursor)>)
    ensures r.Ok? ==> Follows(c, r.value.1)
    ensures r.Ok? && r.value.0.Some? ==> Remaining(r.value.1) < Remaining(c) && WellMade(r.value.0.value)
    ensures r.Ok? && r.value.0.None? ==> r.value.1.Exhausted?
  {
    var (kind, c1) :- ParseSlideType(c);
    if kind.None? then Ok((None, c1)) else Dispatch(rev, transition, kind.value, c1)
  }

  /** parse_slide's dispatch on the slide type `name`, read from the line
      before `c`. An unknown type fails at the line after the type; an
      unknown transition at the line after the slide. */
  function Dispatch(rev: Revision, transition: Option<string>, name: string, c: Cursor): (r: Result<(Option<Parsed>, Cursor)>)
    ensures r.Ok? ==> r.value.0.Some? && Follows(c, r.value.1) && WellMade(r.value.0.value)
    ensures r.Ok? ==> r.value.0.value.slide.kind == name
    ensures r.Err? && name !in KindNames ==> r.error == Error(InvalidSlideType(name), c.line)
  {
    match KindOf(name)
    case None => Err(Error(InvalidSlideType(name), c.line))
    case Some(k) =>
      var made :- Body(rev, k, c);
      var text :- if transition.None? then Ok(made.text) else Wrap(transition.value, made.text, made.rest.line);
      Ok((Some(Parsed(Slide(name, text), made.plugin)), made.rest))
  }

  // -- what parse_slide promises --

  /** `:(name)` is the transition `name` without a duration, and the cursor
      lands right behind the `)`. */
  lemma TransitionRoundTrip(name: string, rest: string, line: int)
    requires IsName(name)
    ensures ParseTransition(At(":(" + name + ")" + rest, line))
         == Ok((Some(Transition(name, None)), At(rest, line)))
  {
    var u := ")" + rest;
    assert ":(" + name + ")" + rest == ":" + ("(" + name + u);
    ColonParen("(" + name + u, line);
    ParenName(name, u, line);
    CloseAfterName(name, rest, line);
  }

  /** `:(name, duration)`: the duration is kept as it was written. */
  lemma TransitionDurationRoundTrip(name: string, d: string, rest: string, line: int)
    requires IsName(name) && IsNumber(d)
    ensures ParseTransition(At(":(" + name + ", " + d + ")" + rest, line))
         == Ok((Some(Transition(name, Some(d))), At(rest, line)))
  {
    var u := ", " + d + ")" + rest;
    assert ":(" + name + ", " + d + ")" + rest == ":" + ("(" + name + u);
    ColonParen("(" + name + u, line);
    ParenName(name, u, line);
    DurationAfterName(name, d, rest, line);
  }

  /** A `:` followed by `(` opens a transition. */
  lemma ColonParen(t: string, line: int)
    requires t != [] && t[0] == '('
    ensures ParseTransition(At(":" + t, line)) == TransitionAfterParen(t, line)
  {
    assert (":" + t)[1..] == t;
    NoSpaceSkipped(t, line);
  }

  /** The name loop stops at the first character that is no name character. */
  lemma ParenName(name: string, u: string, line: int)
    requires IsName(name) && u != [] && !IsNameChar(u[0])
    ensures TransitionAfterParen("(" + name + u, line) == AfterName(name, u, line)
  {
    var t := "(" + name + u;
    var v := t[1..];
    assert v == name + u;
    forall i | 0 <= i < |name|
      ensures IsNameChar(v[i])
    {
      assert v[i] == name[i];
    }
    assert v[|name|] == u[0];
    PrefixWhileUnique(v, IsNameChar, |name|);
    assert t[1..1 + |name|] == name;
    assert t[1 + |name|..] == u;
  }

  lemma CloseAfterName(name: string, rest: string, line: int)
    requires IsName(name)
    ensures AfterName(name, ")" + rest, line) == Ok((Some(Transition(name, None)), At(rest, line)))
  {
    var u := ")" + rest;
    assert u[0] == ')' && u[1..] == rest;
    NoSpaceSkipped(u, line);
  }

  lemma DurationAfterName(name: string, d: string, rest: string, line: int)
    requires IsName(name) && IsNumber(d)
    ensures AfterName(name, ", " + d + ")" + rest, line) == Ok((Some(Transition(name, Some(d))), At(rest, line)))
  {
    var e := d + ")" + rest;
    assert ", " + d + ")" + rest == ", " + e;
    CommaThen(name, e, line);
    DurationRoundTrip(d, rest, line);
  }

  /** `, ` behind the name: the duration is read after the blank. */
  lemma CommaThen(name: string, e: string, line: int)
    requires IsName(name) && e != [] && !IsWhitespace(e[0])
    ensures AfterName(name, ", " + e, line) == Closing(name, ParseDuration(e, line))
  {
    var u := ", " + e;
    assert u[0] == ',' && u[1..] == " " + e;
    NoSpaceSkipped(u, line);
    OneSpaceSkipped(e, line);
  }

  /** A number in front of `)` is read as the duration. */
  lemma DurationRoundTrip(d: string, rest: string, line: int)
    requires IsNumber(d)
    ensures ParseDuration(d + ")" + rest, line) == Ok((Some(d), At(")" + rest, line)))
  {
    var s := d + ")" + rest;
    var u := s[1..];
    forall i | 0 <= i < |d| - 1
      ensures IsNumberChar(u[i])
    {
      assert u[i] == d[i + 1];
    }
    assert u[|d| - 1] == ')';
    PrefixWhileUnique(u, IsNumberChar, |d| - 1);
    assert s[..|d|] == d && s[|d|..] == ")" + rest;
    NoSpaceSkipped(")" + rest, line);
  }

  /** With a transition first, the slide is read behind it and wrapped in
      the transition's name. */
  lemma TransitionFirst(s: string, line: int, tr: Transition, rest: Cursor)
    requires s != [] && s[0] == ':'
    requires ParseTransition(At(s, line)) == Ok((Some(tr), rest))
    ensures ParseSlide(Current, At(s, line)) == SlideAfter(Current, Some(tr.name), rest)
  {
    NoSpaceSkipped(s, line);
  }

  /** The duration of a transition never reaches the slide: `:(name, d)` and
      `:(name)` in front of the same slide parse alike. */
  lemma DurationIgnored(name: string, d: string, rest: string, line: int)
    requires IsName(name) && IsNumber(d)
    ensures ParseSlide(Current, At(":(" + name + ", " + d + ")" + rest, line))
         == ParseSlide(Current, At(":(" + name + ")" + rest, line))
  {
    TransitionRoundTrip(name, rest, line);
    TransitionDurationRoundTrip(name, d, rest, line);
    TransitionFirst(":(" + name + ", " + d + ")" + rest, line, Transition(name, Some(d)), At(rest, line));
    TransitionFirst(":(" + name + ")" + rest, line, Transition(name, None), At(rest, line));
  }

  /** A transition with only white space behind it is dropped without a
      word, whatever its name: the parse ends as if the input had. */
  lemma TrailingTransitionDropped(name: string, rest: string, line: int)
    requires IsName(name) && Blank(At(rest, line))
    ensures var r := ParseSlide(Current, At(":(" + name + ")" + rest, line));
      r.Ok? && r.value.0.None?
  {
    TransitionRoundTrip(name, rest, line);
    TransitionFirst(":(" + name + ")" + rest, line, Transition(name, None), At(rest, line));
    NoTypeIffBlank(At(rest, line));
  }

  /** The earlier revision knows no transitions: `:(name)` on a line of its
      own is read as the slide type `(name)`, which names no slide type. */
  lemma EarlyRejectsTransitions(name: string, rest: string, line: int)
    requires IsName(name)
    ensures ParseSlide(Early, At(":(" + name + ")\n" + rest, line))
         == Err(Error(InvalidSlideType("(" + name + ")"), line + 1))
  {
    var v := "(" + name + ")";
    assert ":(" + name + ")\n" + rest == ":" + v + "\n" + rest;
    forall i | 0 <= i < |v|
      ensures v[i] != '\n'
    {
      if 0 < i < |v| - 1 {
        assert v[i] == name[i - 1];
      }
    }
    TypeOnItsLine(v, rest, line);
    assert v[0] == '(';
    NoKeyword(v);
    UnknownTypeRejected(Early, None, At(":" + v + "\n" + rest, line));
  }

  /** `:` and a line without white space at either end is that line as the
      slide type. */
  lemma TypeOnItsLine(v: string, rest: string, line: int)
    requires v != [] && '\n' !in v && !IsStripSpace(v[0]) && !IsStripSpace(v[|v| - 1])
    ensures ParseSlideType(At(":" + v + "\n" + rest, line)) == Ok((Some(v), At(rest, line + 1)))
  {
    var s := ":" + v + "\n" + rest;
    assert s[0] == ':';
    NoSpaceSkipped(s, line);
    assert s[1..] == v + "\n" + rest;
    OneLineOf(v, rest, line);
    StripUnchanged(v);
  }

  /** Every keyword starts with a lower-case letter. */
  lemma NoKeyword(v: string)
    requires v != [] && !('a' <= v[0] <= 'z')
    ensures v !in KindNames
  {
  }

  /** A slide type outside the nine keywords is an error, reported at the
      line after the type. */
  lemma UnknownTypeRejected(rev: Revision, transition: Option<string>, c: Cursor)
    requires ParseSlideType(c).Ok? && ParseSlideType(c).value.0.Some?
    requires ParseSlideType(c).value.0.value !in KindNames
    ensures SlideAfter(rev, transition, c)
         == Err(Error(InvalidSlideType(ParseSlideType(c).value.0.value), ParseSlideType(c).value.1.line))
  {
    KindTable(CoverPage, ParseSlideType(c).value.0.value);
  }

  /** A citation without a `#` title puts `None` where the title goes. */
  lemma CitationWithoutTitle(rev: Revision, author: string, line: int)
    requires Plain(author) && '\n' !in author && author != []
    requires !IsStripSpace(author[0]) && !IsStripSpace(author[|author| - 1])
    ensures CitationBody(rev, At("--" + author + "\n", line))
         == Ok(Made(CitationFrame("None", author), None, At([], line + 1)))
  {
    var s := "--" + author + "\n";
    assert s[0] == '-';
    NoSpaceSkipped(s, line);
    NoHashNoTitle(rev, At(s, line));
    CiteLine(rev, author, line);
    UntitledCitation(rev, At(s, line), author, At([], line + 1));
  }

  /** Without a title, the citation is the author line right at `c`. */
  lemma UntitledCitation(rev: Revision, c: Cursor, author: string, rest: Cursor)
    requires ParseTitle(rev, c) == Ok((None, c))
    requires ParseCite(rev, c) == Ok((author, rest))
    ensures CitationBody(rev, c) == Ok(Made(CitationFrame("None", author), None, rest))
  {
  }

  /** `--` and the author's line. */
  lemma CiteLine(rev: Revision, author: string, line: int)
    requires Plain(author) && '\n' !in author && author != []
    requires !IsStripSpace(author[0]) && !IsStripSpace(author[|author| - 1])
    ensures ParseCite(rev, At("--" + author + "\n", line)) == Ok((author, At([], line + 1)))
  {
    var s := "--" + author + "\n";
    assert s[0] == '-' && s[2..] == author + "\n";
    NoSpaceSkipped(s, line);
    DashCite(rev, At(s, line), s, line);
    OneLine(author, line);
    CapturePlain(rev, At(author + "\n", line));
  }

  /** After the white space, a `-` and one more character: the rest of the line. */
  lemma DashCite(rev: Revision, c: Cursor, s: string, line: int)
    requires SkipSpace(c) == At(s, line) && |s| >= 2 && s[0] == '-'
    ensures ParseCite(rev, c) == Capture(rev, At(s[2..], line))
  {
  }

  /** A code slide without a title: the block verbatim in its frame, and
      the listings plugin of the block's language. */
  lemma CodeSlide(rev: Revision, lang: string, code: string, rest: string, line: int)
    requires '\n' !in lang && '`' !in code
    ensures CodeBody(rev, At("```" + lang + "\n" + code + "```" + rest, line))
         == Ok(Made(CodeFrame("", Strip(lang), code), Some("listings/" + Strip(lang)),
                    At(rest, line + 2 + Newlines(code))))
  {
    var s := "```" + lang + "\n" + code + "```" + rest;
    assert s[0] == '`';
    NoSpaceSkipped(s, line);
    NoHashNoTitle(rev, At(s, line));
    CodeRoundTrip(lang, code, rest, line);
    UntitledCode(rev, At(s, line), Strip(lang), code, At(rest, line + 2 + Newlines(code)));
  }

  /** Without a title, the code slide is the block that starts right at `c`. */
  lemma UntitledCode(rev: Revision, c: Cursor, lang: string, code: string, rest: Cursor)
    requires ParseTitle(rev, c) == Ok((None, c))
    requires ParseCodeBlock(SkipSpace(c)) == Ok(((lang, code), rest))
    ensures CodeBody(rev, c) == Ok(Made(CodeFrame("", lang, code), Some("listings/" + lang), rest))
  {
  }

  // -- what each slide type makes --

  /** `# title` on its line makes a big-title slide of that title. */
  lemma BigTitleSlide(rev: Revision, t: string, rest: string, line: int)
    requires Plain(t) && '\n' !in t && t != [] && !IsStripSpace(t[0]) && !IsStripSpace(t[|t| - 1])
    ensures BigTitleBody(rev, At("# " + t + "\n" + rest, line))
         == Ok(Made("\\bigtitle{" + t + "}", None, At(rest, line + 1)))
  {
    TitleLineThen(rev, t, rest, line);
  }

  /** A big-title slide whose text does not start with `#` is an error at
      the slide's own line. */
  lemma BigTitleNeedsHash(rev: Revision, c: Cursor)
    requires SkipSpace(c).At? && SkipSpace(c).text != [] && SkipSpace(c).text[0] != '#'
    ensures BigTitleBody(rev, c) == Err(Error(ExpectedHash, c.line))
  {
    NoHashNoTitle(rev, c);
  }

  /** A titled citation: the title as the quote, then the author. */
  lemma TitledCitation(rev: Revision, t: string, author: string, line: int)
    requires Plain(t) && '\n' !in t && t != [] && !IsStripSpace(t[0]) && !IsStripSpace(t[|t| - 1])
    requires Plain(author) && '\n' !in author && author != []
    requires !IsStripSpace(author[0]) && !IsStripSpace(author[|author| - 1])
    ensures CitationBody(rev, At("# " + t + "\n" + ("--" + author + "\n"), line))
         == Ok(Made(CitationFrame(t, author), None, At([], line + 2)))
  {
    var c := At("# " + t + "\n" + ("--" + author + "\n"), line);
    TitleLineThen(rev, t, "--" + author + "\n", line);
    CiteLine(rev, author, line + 1);
    CitationOf(rev, c, t, At("--" + author + "\n", line + 1), author, At([], line + 2));
  }

  /** With a title, the citation is the title and the author line after it. */
  lemma CitationOf(rev: Revision, c: Cursor, t: string, c1: Cursor, author: string, rest: Cursor)
    requires ParseTitle(rev, c) == Ok((Some(t), c1))
    requires ParseCite(rev, c1) == Ok((author, rest))
    ensures CitationBody(rev, c) == Ok(Made(CitationFrame(t, author), None, rest))
  {
  }

  /** `[path]` makes a big-image slide of that path. */
  lemma BigImageSlide(path: string, rest: string, line: int)
    requires ']' !in path
    ensures BigImageBody(At("[" + path + "]" + rest, line))
         == Ok(Made("\\bigimage{" + path + "}", None, At(rest, line)))
  {
    ImageRoundTrip(path, rest, line);
  }

  /** A big-image slide whose text does not start with `[` is an error. */
  lemma BigImageNeedsImage(s: string, line: int)
    requires s != [] && s[0] != '['
    ensures BigImageBody(At(s, line)) == Err(Error(ExpectedImage, line))
  {
  }

  /** Two bracketed paths on two lines make a two-image slide, left then right. */
  lemma TwoImagesSlide(p: string, q: string, rest: string, line: int)
    requires ']' !in p && ']' !in q
    ensures TwoImagesBody(At("[" + p + "]" + ("\n" + ("[" + q + "]" + rest)), line))
         == Ok(Made("\\twoimages{" + p + "}{" + q + "}", None, At(rest, line + 1)))
  {
    var second := "[" + q + "]" + rest;
    ImageRoundTrip(p, "\n" + second, line);
    NewlineSkipped(second, line);
    ImageRoundTrip(q, rest, line + 1);
  }

  /** One image and the white space after it. */
  lemma NextImageRoundTrip(path: string, rest: string, line: int)
    requires ']' !in path
    ensures NextImage(At("[" + path + "]" + rest, line)) == Ok((path, SkipSpace(At(rest, line))))
  {
    ImageRoundTrip(path, rest, line);
  }

  /** A path in brackets, then a line break and the text after it. */
  function Bracketed(path: string, next: string): string {
    "[" + path + "]" + ("\n" + next)
  }

  /** A bracketed line is the next image; the line after it follows. */
  lemma ImageLine(path: string, next: string, line: int, line': int)
    requires ']' !in path
    requires next == [] || !IsWhitespace(next[0])
    requires line' == line + 1
    ensures NextImage(At(Bracketed(path, next), line)) == Ok((path, At(next, line')))
  {
    NextImageRoundTrip(path, "\n" + next, line);
    NewlineSkipped(next, line);
  }

  /** Four images read one after the other fill the four slots in order. */
  lemma FourImagesOf(c0: Cursor, c1: Cursor, c2: Cursor, c3: Cursor, c4: Cursor,
                     a: string, b: string, c: string, d: string)
    requires NextImage(c0) == Ok((a, c1)) && NextImage(c1) == Ok((b, c2))
    requires NextImage(c2) == Ok((c, c3)) && NextImage(c3) == Ok((d, c4))
    ensures FourImagesBody(c0) == Ok(Made(FourImagesText([a, b, c, d]), None, c4))
  {
    assert Images(c4, 0) == Ok(([], c4));
    ImagesStep(c3, 1);
    ImagesStep(c2, 2);
    ImagesStep(c1, 3);
    ImagesStep(c0, 4);
    InOrder(a, b, c, d);
  }

  lemma InOrder<T>(a: T, b: T, c: T, d: T)
    ensures [a] + ([b] + ([c] + ([d] + []))) == [a, b, c, d]
  {
    assert [d] + [] == [d];
    assert [c] + [d] == [c, d];
    assert [b] + [c, d] == [b, c, d];
  }

  /** Four bracketed paths on four lines make a four-image slide, in order. */
  lemma FourImagesSlide(a: string, b: string, c: string, d: string, rest: string, line: int)
    requires ']' !in a && ']' !in b && ']' !in c && ']' !in d
    requires rest == [] || !IsWhitespace(rest[0])
    ensures FourImagesBody(At(Bracketed(a, Bracketed(b, Bracketed(c, Bracketed(d, rest)))), line))
         == Ok(Made(FourImagesText([a, b, c, d]), None, At(rest, line + 4)))
  {
    var s3 := Bracketed(d, rest);
    var s2 := Bracketed(c, s3);
    var s1 := Bracketed(b, s2);
    ImageLine(a, s1, line, line + 1);
    ImageLine(b, s2, line + 1, line + 2);
    ImageLine(c, s3, line + 2, line + 3);
    ImageLine(d, rest, line + 3, line + 4);
    FourImagesOf(At(Bracketed(a, s1), line), At(s1, line + 1), At(s2, line + 2), At(s3, line + 3),
                 At(rest, line + 4), a, b, c, d);
  }

  /** An item slide is the frame of the optional title and the LaTeX list of
      the items; it fails exactly when the list cannot be processed. */
  lemma ItemsSlide(rev: Revision, c: Cursor, title: string, c1: Cursor, list: ItemList, c2: Cursor)
    requires OptionalTitle(rev, c) == Ok((title, c1))
    requires ParseItems(rev, c1) == Ok((list, c2))
    ensures ItemsBody(rev, c).Ok? <==> ProcessItems(list).Some?
    ensures ProcessItems(list).Some? ==>
      ItemsBody(rev, c) == Ok(Made(ItemsFrame(title, Render(ProcessItems(list).value)), None, SkipSpace(c2)))
    ensures ProcessItems(list).None? ==> ItemsBody(rev, c) == Err(Error(Crash, c2.line))
  {
  }

  /** An image on the first line: the image column on the left, the list on
      the right. */
  lemma ImageLeftSlide(rev: Revision, title: string, image: string, c: Cursor, c1: Cursor,
                       list: ItemList, c2: Cursor)
    requires NextLine(c) == Ok(c1)
    requires ParseItems(rev, c1) == Ok((list, c2))
    requires ProcessItems(list).Some?
    ensures ImageLeft(rev, title, image, c)
         == Ok(Made(ItemsImageFrame(rev, title, true, image, Render(ProcessItems(list).value)), None, c2))
  {
  }

  /** An image after the list: the list column on the left, the image on
      the right. */
  lemma ImageRightSlide(rev: Revision, title: string, c: Cursor, list: ItemList, c1: Cursor,
                        image: string, c2: Cursor)
    requires ParseItems(rev, c) == Ok((list, c1))
    requires ParseImage(SkipSpace(c1)) == Ok((Some(image), c2))
    requires ProcessItems(list).Some?
    ensures ImageRight(rev, title, c)
         == Ok(Made(ItemsImageFrame(rev, title, false, image, Render(ProcessItems(list).value)), None, c2))
  {
  }

  /** No image before the list and none after it is an error. */
  lemma ImageRightMissing(rev: Revision, title: string, c: Cursor, list: ItemList, c1: Cursor, c2: Cursor)
    requires ParseItems(rev, c) == Ok((list, c1))
    requires ParseImage(SkipSpace(c1)) == Ok((None, c2))
    ensures ImageRight(rev, title, c) == Err(Error(ExpectedItemsImage, c2.line))
  {
  }

  // -- transitions on a slide --

  /** After a transition, the slide's text goes inside the transition's frame
      with the effect and direction of the table, and an unknown name is an
      error at the line after the slide. */
  lemma DispatchWrapped(rev: Revision, name: string, k: Kind, c: Cursor)
    requires Body(rev, k, c).Ok?
    ensures var made := Body(rev, k, c).value;
      Dispatch(rev, Some(name), KindName(k), c)
        == if name in Transitions then
             Ok((Some(Parsed(Slide(KindName(k), TransitionFrame(Transitions[name].0, Transitions[name].1, made.text)),
                             made.plugin)), made.rest))
           else Err(Error(InvalidTransition(name), made.rest.line))
  {
    KindTable(k, KindName(k));
  }

  /** A known transition before a cover page wraps the cover frame. */
  lemma TransitionSlide(name: string, rest: string, line: int)
    requires IsName(name) && name in Transitions
    ensures ParseSlide(Current, At(":(" + name + ")" + ("\n" + (":" + "coverpage" + "\n" + rest)), line))
         == Ok((Some(Parsed(Slide("coverpage",
                  TransitionFrame(Transitions[name].0, Transitions[name].1, "\\coverframe")), None)),
                At(rest, line + 2)))
  {
    var s := ":" + "coverpage" + "\n" + rest;
    TransitionRoundTrip(name, "\n" + s, line);
    TransitionFirst(":(" + name + ")" + ("\n" + s), line, Transition(name, None), At("\n" + s, line));
    TypeAfterNewline(s, line, line + 1);
    CoverPageLine(rest, line + 1);
    WrappedCover(name, At("\n" + s, line), At(rest, line + 2));
  }

  /** `:coverpage` on its own line. */
  lemma CoverPageLine(rest: string, line: int)
    ensures ParseSlideType(At(":" + "coverpage" + "\n" + rest, line)) == Ok((Some("coverpage"), At(rest, line + 1)))
  {
    var v := "coverpage";
    assert v[0] == 'c' && v[|v| - 1] == 'e';
    assert '\n' !in v;
    TypeOnItsLine(v, rest, line);
  }

  /** The type line right after a line break is read on the next line. */
  lemma TypeAfterNewline(s: string, line: int, next: int)
    requires s != [] && s[0] == ':'
    requires next == line + 1
    ensures ParseSlideType(At("\n" + s, line)) == ParseSlideType(At(s, next))
  {
    NewlineSkipped(s, line);
    NoSpaceSkipped(s, next);
  }

  /** A cover page after a known transition: the cover frame in the
      transition's frame. */
  lemma WrappedCover(name: string, c: Cursor, c1: Cursor)
    requires name in Transitions
    requires ParseSlideType(c) == Ok((Some("coverpage"), c1))
    ensures SlideAfter(Current, Some(name), c)
         == Ok((Some(Parsed(Slide("coverpage",
                  TransitionFrame(Transitions[name].0, Transitions[name].1, "\\coverframe")), None)), c1))
  {
    DispatchWrapped(Current, name, CoverPage, c1);
  }

  /** A transition name outside the table is an error, reported at the line
      after the slide it was meant for. */
  lemma UnknownTransitionRejected(name: string, rest: string, line: int, k: Kind, c1: Cursor)
    requires IsName(name) && name !in Transitions
    requires ParseSlideType(At(rest, line)) == Ok((Some(KindName(k)), c1))
    requires Body(Current, k, c1).Ok?
    ensures ParseSlide(Current, At(":(" + name + ")" + rest, line))
         == Err(Error(InvalidTransition(name), Body(Current, k, c1).value.rest.line))
  {
    TransitionRoundTrip(name, rest, line);
    TransitionFirst(":(" + name + ")" + rest, line, Transition(name, None), At(rest, line));
    DispatchWrapped(Current, name, k, c1);
  }
}
