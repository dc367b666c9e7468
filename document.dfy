/** The whole keynote: parse_keynote, parse_metadata and its key and value,
    and the `Keynote` record they fill (keynotec/parser.py, and the same
    functions of keynotec.py, which differ only in the keys they accept). */
module Document {
  import opened Cursors
  import opened Inline
  import opened Slides

  // -- the metadata block --

  /** The metadata keys. The current parser accepts the keys of the defaults
      table that `run()` merges the metadata into; the earlier one has a
      fixed list without `slidenumber`. */
  function Keys(rev: Revision): (r: set<string>)
    ensures "slidenumber" in r <==> rev == Current
  {
    var early := {"theme", "author", "institute", "date", "title", "subtitle", "language"};
    if rev == Current then early + {"slidenumber"} else early
  }

  /** parse_metadata_key: the next token when it is a key; otherwise no key
      and the cursor as it was, white space included. */
  function ParseMetadataKey(rev: Revision, c: Cursor): (r: (Option<string>, Cursor))
    ensures r.0.Some? ==> r.0.value in Keys(rev) && r.1.At?
    ensures r.0.Some? ==> Follows(c, r.1)
    ensures r.0.None? ==> r.1 == c
  {
    var (token, rest) := NextToken(c);
    if token.Some? && token.value in Keys(rev) then (token, rest) else (None, c)
  }

  /** parse_metadata_value: after white space, `:`, white space and the
      rest of the line. No text left before or after the `:` crashes. */
  function ParseMetadataValue(c: Cursor): (r: Result<(string, Cursor)>)
    ensures r.Ok? ==> Follows(c, r.value.1) && Remaining(r.value.1) < Remaining(c)
    ensures r.Ok? ==> '\n' !in r.value.0
    ensures r.Err? ==> r.error.kind in {ExpectedColon, Crash}
  {
    var s := SkipSpace(c);
    if s.Exhausted? || s.text == [] then Err(Error(Crash, s.line))
    else if s.text[0] != ':' then Err(Error(ExpectedColon, s.line))
    else ParseString(SkipSpace(At(s.text[1..], s.line)))
  }

  /** parse_metadata: white space, then key and value pairs into `m` until a
      token that is no key. A repeated key keeps its last value. */
  function Metadata(rev: Revision, c: Cursor): (r: Result<(map<string, string>, Cursor)>)
    ensures r.Ok? ==> r.value.0.Keys <= Keys(rev) && Follows(c, r.value.1)
    ensures r.Ok? ==> ParseMetadataKey(rev, r.value.1).0.None?
  {
    MetadataFrom(rev, map[], SkipSpace(c))
  }

  /** The loop of parse_metadata from the pairs `m` read so far. */
  function MetadataFrom(rev: Revision, m: map<string, string>, c: Cursor): (r: Result<(map<string, string>, Cursor)>)
    requires m.Keys <= Keys(rev)
    ensures r.Ok? ==> m.Keys <= r.value.0.Keys <= Keys(rev) && Follows(c, r.value.1)
    ensures r.Ok? ==> ParseMetadataKey(rev, r.value.1).0.None?
    decreases Remaining(c)
  {
    var (key, c1) := ParseMetadataKey(rev, c);
    if key.None? then Ok((m, c))
    else
      var (value, c2) :- ParseMetadataValue(c1);
      MetadataFrom(rev, m[key.value := value], c2)
  }

  /** parse_metadata_key as the source writes it. */
  method ParseMetadataKeyScan(rev: Revision, c: Cursor) returns (r: (Option<string>, Cursor))
    ensures r == ParseMetadataKey(rev, c)
  {
    var token := NextTokenScan(c);
    if token.0.Some? && token.0.value in Keys(rev) {
      r := token;
    } else {
      r := (None, c);
    }
  }

  /** parse_metadata_value as the source writes it. */
  method ParseMetadataValueScan(c: Cursor) returns (r: Result<(string, Cursor)>)
    ensures r == ParseMetadataValue(c)
  {
    var s := SkipSpaceScan(c);
    if s.Exhausted? || s.text == [] {
      return Err(Error(Crash, s.line));
    }
    if s.text[0] != ':' {
      return Err(Error(ExpectedColon, s.line));
    }
    var t := SkipSpaceScan(At(s.text[1..], s.line));
    r := ParseStringScan(t);
  }

  /** parse_metadata as the source writes it: the `metadata` dictionary is
      filled one pair at a time. */
  method ParseMetadataScan(rev: Revision, c: Cursor) returns (r: Result<(map<string, string>, Cursor)>)
    ensures r == Metadata(rev, c)
  {
    var data := SkipSpaceScan(c);
    var metadata: map<string, string> := map[];
    while true
      invariant metadata.Keys <= Keys(rev)
      invariant Metadata(rev, c) == MetadataFrom(rev, metadata, data)
      decreases Remaining(data)
    {
      var key := ParseMetadataKeyScan(rev, data);
      if key.0.None? {
        return Ok((metadata, data));
      }
      var value := ParseMetadataValueScan(key.1);
      if value.Err? {
        return Err(value.error);
      }
      metadata := metadata[key.0.value := value.value.0];
      data := value.value.1;
    }
  }

  /** A value that parse_STRING reads back unchanged: one line, no white
      space at either end. */
  predicate Bare(value: string) {
    value != [] && '\n' !in value && !IsStripSpace(value[0]) && !IsStripSpace(value[|value| - 1])
  }

  /** `key: value` on a line of its own adds the pair and moves to the
      next line. */
  lemma MetadataLine(rev: Revision, m: map<string, string>, key: string, value: string, rest: string, line: int)
    requires m.Keys <= Keys(rev) && key in Keys(rev) && forall i :: 0 <= i < |key| ==> IsAlnum(key[i])
    requires Bare(value)
    ensures MetadataFrom(rev, m, At(key + ": " + value + "\n" + rest, line))
         == MetadataFrom(rev, m[key := value], At(rest, line + 1))
  {
    var u := ": " + value + "\n" + rest;
    assert key + ": " + value + "\n" + rest == key + u;
    TokenRoundTrip(key, u, line);
    ValueLine(value, rest, line);
    MetadataStep(rev, m, At(key + u, line), key, At(u, line), value, At(rest, line + 1));
  }

  /** One pass of the loop of parse_metadata. */
  lemma MetadataStep(rev: Revision, m: map<string, string>, c: Cursor, key: string, c1: Cursor, value: string, c2: Cursor)
    requires m.Keys <= Keys(rev) && key in Keys(rev)
    requires NextToken(c) == (Some(key), c1) && ParseMetadataValue(c1) == Ok((value, c2))
    ensures MetadataFrom(rev, m, c) == MetadataFrom(rev, m[key := value], c2)
  {
  }

  /** `: value` and the end of its line. */
  lemma ValueLine(value: string, rest: string, line: int)
    requires Bare(value)
    ensures ParseMetadataValue(At(": " + value + "\n" + rest, line)) == Ok((value, At(rest, line + 1)))
  {
    var e := value + "\n" + rest;
    var u := ": " + e;
    assert ": " + value + "\n" + rest == u;
    assert u[0] == ':' && u[1..] == " " + e;
    ColonFirst(u, line);
    OneSpaceSkipped(e, line);
    OneLineOf(value, rest, line);
    StripUnchanged(value);
  }

  /** A value that starts right at its `:`. */
  lemma ColonFirst(u: string, line: int)
    requires u != [] && u[0] == ':'
    ensures ParseMetadataValue(At(u, line)) == ParseString(SkipSpace(At(u[1..], line)))
  {
    NoSpaceSkipped(u, line);
  }

  /** A key given twice keeps the value given last. */
  lemma RepeatedKeyLastWins(rev: Revision, key: string, first: string, last: string, rest: string, line: int)
    requires key in Keys(rev) && forall i :: 0 <= i < |key| ==> IsAlnum(key[i])
    requires Bare(first)
    requires Bare(last)
    ensures MetadataFrom(rev, map[], At(key + ": " + first + "\n" + (key + ": " + last + "\n" + rest), line))
         == MetadataFrom(rev, map[key := last], At(rest, line + 2))
  {
    var second := key + ": " + last + "\n" + rest;
    MetadataLine(rev, map[], key, first, second, line);
    MetadataLine(rev, map[key := first], key, last, rest, line + 1);
    Overwrite(map[], key, first, last);
  }

  lemma Overwrite(m: map<string, string>, key: string, first: string, last: string)
    ensures m[key := first][key := last] == m[key := last]
  {
  }

  /** `slidenumber` is a key of the current parser only: the earlier one
      ends its metadata block there and leaves the line unread. */
  lemma SlideNumberKey(rest: string, line: int)
    requires rest != [] ==> !IsAlnum(rest[0])
    ensures ParseMetadataKey(Current, At("slidenumber" + rest, line)) == (Some("slidenumber"), At(rest, line))
    ensures ParseMetadataKey(Early, At("slidenumber" + rest, line)) == (None, At("slidenumber" + rest, line))
  {
    TokenRoundTrip("slidenumber", rest, line);
  }

  // -- the slides --

  /** The loop of parse_keynote: slides, each followed by white space,
      until parse_slide finds no slide type. It only stops at the end of the
      input. */
  function SlideLoop(rev: Revision, c: Cursor): (r: Result<(seq<Parsed>, Cursor)>)
    ensures r.Ok? ==> r.value.1.Exhausted?
    ensures r.Ok? ==> forall i :: 0 <= i < |r.value.0| ==> WellMade(r.value.0[i])
    decreases Remaining(c)
  {
    var (p, c1) :- ParseSlide(rev, c);
    if p.None? then Ok(([], c1))
    else
      var (rest, c2) :- SlideLoop(rev, SkipSpace(c1));
      Ok(([p.value] + rest, c2))
  }

  /** The slides in order. */
  function SlidesOf(ps: seq<Parsed>): (r: seq<Slide>)
    ensures |r| == |ps|
  {
    if ps == [] then [] else SlidesOf(ps[..|ps| - 1]) + [ps[|ps| - 1].slide]
  }

  /** The plugins the slides add, in order. */
  function PluginsOf(ps: seq<Parsed>): seq<string> {
    if ps == [] then []
    else
      var last := ps[|ps| - 1];
      PluginsOf(ps[..|ps| - 1]) + (if last.plugin.Some? then [last.plugin.value] else [])
  }

  /** How many code slides there are. */
  function CodeSlides(slides: seq<Slide>): nat {
    if slides == [] then 0
    else CodeSlides(slides[..|slides| - 1]) + (if slides[|slides| - 1].kind == "code" then 1 else 0)
  }

  /** Every code slide adds exactly one plugin, every other slide none, and
      each plugin is a `listings/` entry; duplicates are kept. */
  lemma {:induction false} PluginPerCodeSlide(ps: seq<Parsed>)
    requires forall i :: 0 <= i < |ps| ==> WellMade(ps[i])
    ensures |PluginsOf(ps)| == CodeSlides(SlidesOf(ps))
    ensures forall i :: 0 <= i < |PluginsOf(ps)| ==> IsListing(PluginsOf(ps)[i])
  {
    if ps != [] {
      var init := ps[..|ps| - 1];
      assert forall i :: 0 <= i < |init| ==> WellMade(init[i]) by {
        forall i | 0 <= i < |init| ensures WellMade(init[i]) {
          assert init[i] == ps[i];
        }
      }
      PluginPerCodeSlide(init);
      assert WellMade(ps[|ps| - 1]);
      assert SlidesOf(ps)[..|ps| - 1] == SlidesOf(init);
    }
  }

  /** A keynote as parse_keynote returns it. */
  datatype Doc = Doc(metadata: map<string, string>, slides: seq<Slide>, plugins: seq<string>)

  /** parse_keynote: the metadata block, then the slides. No slide at all is
      an error. The check for input left behind the slides never fires,
      because the slide loop only stops at the end of the input. */
  function ParseDocument(rev: Revision, c: Cursor): (r: Result<Doc>)
    ensures r.Ok? ==> r.value.slides != [] && r.value.metadata.Keys <= Keys(rev)
  {
    var (metadata, c1) :- Metadata(rev, c);
    var (parsed, c2) :- SlideLoop(rev, c1);
    Finish(metadata, parsed, c2)
  }

  /** Input is left when the cursor still holds text. */
  predicate HasInput(c: Cursor) {
    c.At? && c.text != []
  }

  /** The checks behind the slide loop, and the keynote they let through. */
  function Finish(metadata: map<string, string>, parsed: seq<Parsed>, c: Cursor): (r: Result<Doc>)
    ensures r.Ok? <==> parsed != [] && (c.Exhausted? || c.text == [])
    ensures r.Ok? ==> r.value == Doc(metadata, SlidesOf(parsed), PluginsOf(parsed))
    ensures r.Err? && c.Exhausted? ==> r.error == Error(NoSlide, c.line)
  {
    if parsed == [] then Err(Error(NoSlide, c.line))
    else if HasInput(c) then Err(Error(InputLeft, c.line))
    else Ok(Doc(metadata, SlidesOf(parsed), PluginsOf(parsed)))
  }

  lemma {:induction false} SlideKinds(ps: seq<Parsed>)
    requires forall i :: 0 <= i < |ps| ==> WellMade(ps[i])
    ensures forall i :: 0 <= i < |SlidesOf(ps)| ==> SlidesOf(ps)[i].kind in KindNames
  {
    if ps != [] {
      var init := ps[..|ps| - 1];
      assert forall i :: 0 <= i < |init| ==> WellMade(init[i]) by {
        forall i | 0 <= i < |init| ensures WellMade(init[i]) {
          assert init[i] == ps[i];
        }
      }
      SlideKinds(init);
      assert WellMade(ps[|ps| - 1]);
    }
  }

  /** No slide is an error exactly when the slide loop finds none. */
  lemma NoSlideIffEmpty(rev: Revision, c: Cursor)
    requires Metadata(rev, c).Ok? && SlideLoop(rev, Metadata(rev, c).value.1).Ok?
    ensures ParseDocument(rev, c).Err? <==> SlideLoop(rev, Metadata(rev, c).value.1).value.0 == []
    ensures ParseDocument(rev, c).Err? ==> ParseDocument(rev, c).error.kind == NoSlide
  {
  }

  /** The slides of a parsed keynote are of the nine types, and its
      plugins are one `listings/` entry per code slide. */
  lemma DocumentSlides(rev: Revision, c: Cursor)
    requires ParseDocument(rev, c).Ok?
    ensures var d := ParseDocument(rev, c).value;
      && (forall i :: 0 <= i < |d.slides| ==> d.slides[i].kind in KindNames)
      && |d.plugins| == CodeSlides(d.slides)
      && (forall i :: 0 <= i < |d.plugins| ==> IsListing(d.plugins[i]))
  {
    var ps := DocumentParsed(rev, c);
    SlideKinds(ps);
    PluginPerCodeSlide(ps);
  }

  /** The slides the loop parsed for a keynote that parses. */
  lemma DocumentParsed(rev: Revision, c: Cursor) returns (ps: seq<Parsed>)
    requires ParseDocument(rev, c).Ok?
    ensures forall i :: 0 <= i < |ps| ==> WellMade(ps[i])
    ensures ParseDocument(rev, c).value.slides == SlidesOf(ps)
    ensures ParseDocument(rev, c).value.plugins == PluginsOf(ps)
  {
    var c1 := Metadata(rev, c).value.1;
    ps := SlideLoop(rev, c1).value.0;
  }

  // -- the Keynote record --

  /** The record parse_keynote fills. A fresh one per parse. */
  class Keynote {
    var metadata: map<string, string>
    var slides: seq<Slide>
    var plugins: seq<string>

    constructor()
      ensures metadata == map[] && slides == [] && plugins == []
    {
      metadata := map[];
      slides := [];
      plugins := [];
    }
  }

  /** The slides still to come behind `done`. */
  function Prepend(done: seq<Parsed>, r: Result<(seq<Parsed>, Cursor)>): Result<(seq<Parsed>, Cursor)> {
    match r
    case Err(e) => Err(e)
    case Ok((ps, c)) => Ok((done + ps, c))
  }

  lemma PrependEmpty(r: Result<(seq<Parsed>, Cursor)>)
    ensures Prepend([], r) == r
  {
    if r.Ok? {
      assert [] + r.value.0 == r.value.0;
    }
  }

  /** parse_keynote as the source writes it: a fresh keynote gets the
      metadata, then the slides, then the two checks. */
  method ParseKeynote(rev: Revision, c: Cursor) returns (r: Result<Keynote>)
    ensures r.Ok? <==> ParseDocument(rev, c).Ok?
    ensures r.Ok? ==> fresh(r.value)
    ensures r.Ok? ==> Doc(r.value.metadata, r.value.slides, r.value.plugins) == ParseDocument(rev, c).value
    ensures r.Err? ==> r.error == ParseDocument(rev, c).error
  {
    var keynote := new Keynote();
    var m := ParseMetadataScan(rev, c);
    if m.Err? {
      return Err(m.error);
    }
    keynote.metadata := m.value.0;
    var failure, data := ReadSlides(keynote, rev, m.value.1);
    DocumentIs(rev, c);
    if failure.Some? {
      return Err(failure.value);
    }
    if keynote.slides == [] {
      return Err(Error(NoSlide, data.line));
    }
    if HasInput(data) {
      return Err(Error(InputLeft, data.line));
    }
    r := Ok(keynote);
  }

  /** A keynote whose metadata parses is what its slide loop and the
      checks behind it make of the rest. */
  lemma DocumentIs(rev: Revision, c: Cursor)
    requires Metadata(rev, c).Ok?
    ensures var (metadata, rest) := Metadata(rev, c).value;
      ParseDocument(rev, c) == match SlideLoop(rev, rest)
        case Err(e) => Err(e)
        case Ok((parsed, end)) => Finish(metadata, parsed, end)
  {
  }

  /** The slide loop of parse_keynote: each slide is appended to the
      keynote's slides and each plugin a slide needs to its plugins. */
  method ReadSlides(keynote: Keynote, rev: Revision, start: Cursor) returns (failure: Option<Error>, data: Cursor)
    requires keynote.slides == [] && keynote.plugins == []
    modifies keynote
    ensures keynote.metadata == old(keynote.metadata)
    ensures failure.Some? <==> SlideLoop(rev, start).Err?
    ensures failure.Some? ==> failure.value == SlideLoop(rev, start).error
    ensures failure.None? ==> data == SlideLoop(rev, start).value.1
    ensures failure.None? ==> keynote.slides == SlidesOf(SlideLoop(rev, start).value.0)
    ensures failure.None? ==> keynote.plugins == PluginsOf(SlideLoop(rev, start).value.0)
  {
    data := start;
    ghost var done: seq<Parsed> := [];
    PrependEmpty(SlideLoop(rev, start));
    while true
      invariant keynote.metadata == old(keynote.metadata)
      invariant keynote.slides == SlidesOf(done) && keynote.plugins == PluginsOf(done)
      invariant SlideLoop(rev, start) == Prepend(done, SlideLoop(rev, data))
      decreases Remaining(data)
    {
      var step := ParseSlide(rev, data);
      if step.Err? {
        LoopFails(rev, start, done, data);
        return Some(step.error), data;
      }
      var (p, next) := step.value;
      if p.None? {
        LoopEnds(rev, start, done, data);
        return None, next;
      }
      ghost var before := done;
      done := AddSlide(keynote, before, p.value);
      LoopNext(rev, start, before, data, done);
      data := SkipSpaceScan(next);
    }
  }

  /** `keynote.slides.append(slide)`, and the plugin a code slide appends
      to `keynote.plugins`. */
  method AddSlide(keynote: Keynote, ghost before: seq<Parsed>, p: Parsed) returns (ghost done: seq<Parsed>)
    requires keynote.slides == SlidesOf(before) && keynote.plugins == PluginsOf(before)
    modifies keynote
    ensures keynote.metadata == old(keynote.metadata)
    ensures done == before + [p]
    ensures keynote.slides == SlidesOf(done) && keynote.plugins == PluginsOf(done)
  {
    keynote.slides := keynote.slides + [p.slide];
    if p.plugin.Some? {
      keynote.plugins := keynote.plugins + [p.plugin.value];
    }
    done := before + [p];
    AppendOne(before, p, done);
  }

  /** One more slide appended to `before`. */
  lemma AppendOne(before: seq<Parsed>, p: Parsed, done: seq<Parsed>)
    requires done == before + [p]
    ensures SlidesOf(done) == SlidesOf(before) + [p.slide]
    ensures PluginsOf(done) == PluginsOf(before) + (if p.plugin.Some? then [p.plugin.value] else [])
  {
    assert done[..|done| - 1] == before;
  }

  lemma LoopFails(rev: Revision, start: Cursor, done: seq<Parsed>, data: Cursor)
    requires SlideLoop(rev, start) == Prepend(done, SlideLoop(rev, data))
    requires ParseSlide(rev, data).Err?
    ensures SlideLoop(rev, start) == Err(ParseSlide(rev, data).error)
  {
  }

  lemma LoopEnds(rev: Revision, start: Cursor, done: seq<Parsed>, data: Cursor)
    requires SlideLoop(rev, start) == Prepend(done, SlideLoop(rev, data))
    requires ParseSlide(rev, data).Ok? && ParseSlide(rev, data).value.0.None?
    ensures SlideLoop(rev, start) == Ok((done, ParseSlide(rev, data).value.1))
  {
    assert done + [] == done;
  }

  lemma LoopNext(rev: Revision, start: Cursor, before: seq<Parsed>, data: Cursor, done: seq<Parsed>)
    requires SlideLoop(rev, start) == Prepend(before, SlideLoop(rev, data))
    requires ParseSlide(rev, data).Ok? && ParseSlide(rev, data).value.0.Some?
    requires done == before + [ParseSlide(rev, data).value.0.value]
    ensures SlideLoop(rev, start) == Prepend(done, SlideLoop(rev, SkipSpace(ParseSlide(rev, data).value.1)))
  {
    var (p, next) := ParseSlide(rev, data).value;
    SlideLoopStep(rev, data);
    PrependTwice(before, [p.value], SlideLoop(rev, SkipSpace(next)));
  }

  /** One slide, then the rest of the loop. */
  lemma SlideLoopStep(rev: Revision, data: Cursor)
    requires ParseSlide(rev, data).Ok? && ParseSlide(rev, data).value.0.Some?
    ensures SlideLoop(rev, data)
         == Prepend([ParseSlide(rev, data).value.0.value], SlideLoop(rev, SkipSpace(ParseSlide(rev, data).value.1)))
  {
  }

  lemma PrependTwice(before: seq<Parsed>, mid: seq<Parsed>, r: Result<(seq<Parsed>, Cursor)>)
    ensures Prepend(before, Prepend(mid, r)) == Prepend(before + mid, r)
  {
    if r.Ok? {
      assert before + (mid + r.value.0) == before + mid + r.value.0;
    }
  }
}
