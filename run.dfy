/** The part of `run()` that works on a parsed keynote before the LaTeX
    file is written: the template values, which are the defaults overridden
    by the document's metadata, and the page-number line that the
    `slidenumber` option selects. */
module Run {
  import opened Cursors
  import opened Inline
  import opened Document

  /** `metabase`: every placeholder of the metadata template with its
      default value. */
  const Defaults: map<string, string> := map[
    "theme" := "", "author" := "", "institute" := "", "date" := "",
    "title" := "", "subtitle" := "", "language" := "english", "slidenumber" := "none"]

  /** How `run()` can stop before writing the slides. `MissingKey` is the
      `KeyError` of a metadata lookup, `NotTwoWords` the unpacking error of
      a one-word option, `InvalidPosition` the "Invalid slide number
      position" exception. */
  datatype Failure = MissingKey(key: string) | NotTwoWords | InvalidPosition(word: string)

  datatype Outcome<+T> = Done(value: T) | Failed(failure: Failure)

  /** What `run()` writes between `\input{presentation}` and the slides:
      the values filled into the metadata template and the page-number
      configuration, if any. */
  datatype Preamble = Preamble(values: map<string, string>, pageNumber: Option<string>)

  /** The horizontal positions the option accepts. */
  predicate IsPosition(h: string) {
    h == "center" || h == "left" || h == "right"
  }

  /** The vertical positions the option accepts. */
  predicate IsEdge(v: string) {
    v == "top" || v == "bottom"
  }

  /** `slideoption.split(" ", 1)` unpacked into two stripped words; no
      words when the option holds no space. */
  function SplitOption(option: string): (r: Option<(string, string)>)
    ensures r.None? <==> ' ' !in option
  {
    var k := IndexOf(option, ' ');
    if k == |option| then None else Some((Strip(option[..k]), Strip(option[k + 1..])))
  }

  /** The beamer template line: `headline` for the top, `footline` for the
      bottom, with the horizontal position in brackets. */
  function PageNumber(h: string, v: string): string {
    "\\setbeamertemplate{" + (if v == "top" then "headline" else "footline") + "}[" + h + " page number]"
  }

  /** The page-number check of `run()`: no configuration for `none`, an
      exception for a position outside the accepted ones. */
  function SlideNumber(option: string): (r: Outcome<Option<string>>)
    ensures r.Failed? && r.failure == NotTwoWords <==> ' ' !in option
    ensures r.Done? && r.value.Some? ==>
      exists h, v :: IsPosition(h) && IsEdge(v) && r.value.value == PageNumber(h, v)
  {
    match SplitOption(option)
    case None => Failed(NotTwoWords)
    case Some((h, v)) =>
      if h == "none" then Done(None)
      else if !IsPosition(h) then Failed(InvalidPosition(h))
      else if !IsEdge(v) then Failed(InvalidPosition(v))
      else Done(Some(PageNumber(h, v)))
  }

  /** Lines 32-74 of `run()`: `metabase` is updated in place with the
      document's metadata, then the option is looked up in the keynote's
      own metadata (not in `metabase`) and checked. */
  method Prepare(keynote: Keynote) returns (r: Outcome<Preamble>)
    ensures "slidenumber" !in keynote.metadata ==> r == Failed(MissingKey("slidenumber"))
    ensures r.Done? <==> "slidenumber" in keynote.metadata && SlideNumber(keynote.metadata["slidenumber"]).Done?
    ensures r.Failed? && "slidenumber" in keynote.metadata ==>
      r.failure == SlideNumber(keynote.metadata["slidenumber"]).failure
    ensures r.Done? ==> r.value.pageNumber == SlideNumber(keynote.metadata["slidenumber"]).value
    ensures r.Done? ==> r.value.values.Keys == Defaults.Keys + keynote.metadata.Keys
    ensures r.Done? ==> forall k :: k in keynote.metadata ==> r.value.values[k] == keynote.metadata[k]
    ensures r.Done? ==> forall k :: k in Defaults && k !in keynote.metadata ==> r.value.values[k] == Defaults[k]
  {
    var metabase := Defaults;
    metabase := metabase + keynote.metadata;
    if "slidenumber" !in keynote.metadata {
      return Failed(MissingKey("slidenumber"));
    }
    var option := keynote.metadata["slidenumber"];
    var words := SplitOption(option);
    if words.None? {
      return Failed(NotTwoWords);
    }
    var (h, v) := words.value;
    if h == "none" {
      return Done(Preamble(metabase, None));
    }
    if !IsPosition(h) {
      return Failed(InvalidPosition(h));
    }
    if !IsEdge(v) {
      return Failed(InvalidPosition(v));
    }
    r := Done(Preamble(metabase, Some(PageNumber(h, v))));
  }

  // -- properties --

  /** Every key a document may set has a default, so a parsed keynote fills
      exactly the template's placeholders. */
  lemma ValuesCoverTemplate(rev: Revision, c: Cursor)
    requires ParseDocument(rev, c).Ok?
    ensures Defaults.Keys + ParseDocument(rev, c).value.metadata.Keys == Defaults.Keys
  {
    KeysHaveDefaults(rev);
  }

  lemma KeysHaveDefaults(rev: Revision)
    ensures Keys(rev) <= Defaults.Keys
  {
  }

  /** A document that does not set the language is written in English. */
  lemma EnglishByDefault(metadata: map<string, string>)
    requires "language" !in metadata
    ensures (Defaults + metadata)["language"] == "english"
  {
  }

  /** `w` holds no space. */
  predicate OneWord(w: string) {
    forall i :: 0 <= i < |w| ==> w[i] != ' '
  }

  /** Splitting at the first space gives back the two words around it. */
  lemma {:induction false} SplitRoundTrip(h: string, v: string)
    requires OneWord(h)
    ensures SplitOption(h + " " + v) == Some((Strip(h), Strip(v)))
  {
    var option := h + " " + v;
    IndexOfUnique(option, ' ', |h|);
    assert option[..|h|] == h;
    assert option[|h| + 1..] == v;
  }

  /** What `SlideNumber` decides once the option is split into `h` and `v`. */
  lemma Decided(option: string, h: string, v: string)
    requires SplitOption(option) == Some((h, v))
    ensures h == "none" ==> SlideNumber(option) == Done(None)
    ensures h != "none" && !IsPosition(h) ==> SlideNumber(option) == Failed(InvalidPosition(h))
    ensures IsPosition(h) && !IsEdge(v) ==> SlideNumber(option) == Failed(InvalidPosition(v))
    ensures IsPosition(h) && IsEdge(v) ==> SlideNumber(option) == Done(Some(PageNumber(h, v)))
  {
  }

  /** Two words without white space to strip come back from the split. */
  lemma WordsSplit(h: string, v: string)
    requires OneWord(h) && Strip(h) == h && Strip(v) == v
    ensures SplitOption(h + " " + v) == Some((h, v))
  {
    SplitRoundTrip(h, v);
  }

  lemma NoneStripped()
    ensures Strip("none") == "none" && OneWord("none")
  {
    LowerStripped("none");
  }

  /** A lower-case word has no white space to strip and no space inside. */
  lemma LowerStripped(w: string)
    requires w != [] && forall i :: 0 <= i < |w| ==> 'a' <= w[i] <= 'z'
    ensures Strip(w) == w && OneWord(w)
  {
    StripUnchanged(w);
  }

  /** The words the option is compared with have no white space to strip. */
  lemma PositionStripped(h: string)
    requires IsPosition(h)
    ensures Strip(h) == h && OneWord(h)
  {
    LowerStripped(h);
  }

  lemma EdgeStripped(v: string)
    requires IsEdge(v)
    ensures Strip(v) == v
  {
    LowerStripped(v);
  }

  /** A one-word option, `none` included, cannot be unpacked. */
  lemma OneWordFails(option: string)
    requires ' ' !in option
    ensures SlideNumber(option) == Failed(NotTwoWords)
  {
  }

  lemma NoneAloneFails()
    ensures SlideNumber("none") == Failed(NotTwoWords)
  {
    OneWordFails("none");
  }

  /** `none` followed by anything turns the page numbers off. */
  lemma NoneHidesNumbers(v: string)
    ensures SlideNumber("none" + " " + v) == Done(None)
  {
    NoneStripped();
    SplitRoundTrip("none", v);
    Decided("none" + " " + v, "none", Strip(v));
  }

  /** An accepted position pair yields the matching beamer template line. */
  lemma PageNumberShown(h: string, v: string)
    requires IsPosition(h) && IsEdge(v)
    ensures SlideNumber(h + " " + v) ==
      Done(Some("\\setbeamertemplate{" + (if v == "top" then "headline" else "footline") + "}[" + h + " page number]"))
  {
    PositionStripped(h);
    EdgeStripped(v);
    WordsSplit(h, v);
    Decided(h + " " + v, h, v);
  }

  /** A first word other than `none` and the three positions is rejected by
      name, whatever follows it. */
  lemma BadPositionRejected(h: string, v: string)
    requires OneWord(h) && h != "none" && !IsPosition(h)
    requires h == [] || (!IsStripSpace(h[0]) && !IsStripSpace(h[|h| - 1]))
    ensures SlideNumber(h + " " + v) == Failed(InvalidPosition(h))
  {
    StripUnchanged(h);
    SplitRoundTrip(h, v);
    Decided(h + " " + v, h, Strip(v));
  }

  /** After an accepted position, a second word other than `top` and
      `bottom` is rejected by name. */
  lemma BadEdgeRejected(h: string, v: string)
    requires IsPosition(h) && !IsEdge(v)
    requires v == [] || (!IsStripSpace(v[0]) && !IsStripSpace(v[|v| - 1]))
    ensures SlideNumber(h + " " + v) == Failed(InvalidPosition(v))
  {
    PositionStripped(h);
    StripUnchanged(v);
    WordsSplit(h, v);
    Decided(h + " " + v, h, v);
  }

  /** The option is accepted exactly when it has two words and the first is
      `none`, or the first is a position and the second an edge. */
  lemma SlideNumberAccepted(option: string)
    ensures SlideNumber(option).Done? <==>
      SplitOption(option).Some? &&
      var (h, v) := SplitOption(option).value;
      h == "none" || (IsPosition(h) && IsEdge(v))
  {
  }

  /** A document of the earlier revision cannot set `slidenumber`, so
      `run()` stops at the lookup. */
  lemma EarlyKeynoteHasNoOption(c: Cursor)
    requires ParseDocument(Early, c).Ok?
    ensures "slidenumber" !in ParseDocument(Early, c).value.metadata
  {
  }
}
