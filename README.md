# keynotec parser, modelled in Dafny

keynotec compiles a small slide language into LaTeX/Beamer. A document opens
with a metadata block of `key: value` lines. A sequence of slides follows,
each introduced by `:type` and optionally preceded by a transition
`:(name, duration)`. A recursive-descent parser turns the text into a
`Keynote` record: the metadata dictionary, the list of `(type, latex)` slides
and the list of LaTeX plugins that the slides need. Every grammar production
returns its finished LaTeX string. Before the slides are written, `run()`
merges the metadata over a table of defaults and checks the `slidenumber`
option.

This project models:

- the parser of `keynotec/parser.py`;
- its earlier revision `keynotec.py`, which has no transitions, no inline
  formatting and a fixed list of seven metadata keys;
- the part of `run()` in `keynotec/__init__.py` that merges the defaults and
  checks the `slidenumber` option.

The two parser revisions share one set of definitions. Each production takes
a `Revision` (`Current` or `Early`) wherever they differ.

Modules, one per file:

- `Cursors` (cursors.dfy): the cursor `(content, line)` is the datatype
  `At(text, line) | Exhausted(line)`. Failures are
  `Result<T> = Ok | Err(Error(kind, line))`: each `raise Exception(...)` of
  the parser is an `ErrorKind`, and every Python runtime error is `Crash`.
  The module also holds `skip_space`, `next_token`, `parse_STRING` and
  Python's `str.strip`.
- `Inline` (inline.dfy): the escape/toggle machine of `parse_FORMATTED_STRING`
  as the function `Format` over the text and the set of open markers.
  `Capture` is how each revision reads a line: formatted in the current
  revision, plain in the earlier one.
- `Items` (items.dfy): `parse_singleitem`, `parse_itemlist` and its indent
  rule, and `process_items`. The loop of `process_items` is the function
  `Walk` over the items, which yields the pieces `Begin`, `End` and
  `Entry(text)` and the depth left on the stack.
- `Parts` (parts.dfy): `parse_image`, `parse_title`, `optional_title`,
  `parse_cite` and `parse_code_block`.
- `Slides` (slides.dfy): `parse_transition`, `parse_slide_type`, the nine
  `parse_slide_*` productions, the transition table and `parse_slide`.
- `Document` (document.dfy): `parse_metadata` with its key and value,
  `parse_keynote`, and the `Keynote` class whose fields the slide loop
  updates in place.
- `Run` (run.dfy): the defaults table, the merge, and the `slidenumber` check.

The source's index loops are methods (`...Scan`, `ReadSlides`, `Flush`,
`ItemStep`, `ParseItemList`, `Prepare`). Each is proved equal to a pure
function of its inputs, and the properties are proved of that function.

The model follows the code where the code and its documentation disagree:

- `plugins` is a list that keeps duplicates, not a set.
- A drop of several indent levels pops one `\end{itemize}`.
- A missing closing code fence is no error.
- A citation without `#` prints `None` as its title.
- A last line without a newline is taken whole by `parse_STRING`, which
  leaves an empty text behind.
- `parse_metadata_key` of the current parser reads `keynotec.metabase`. In
  `keynotec/__init__.py` that name is a local variable of `run()`, so the
  model takes the key set to be the eight keys of that table
  (`keynotec/__init__.py:32-41`).
- The check "There should be no input left" of `parse_keynote` never fires:
  the slide loop stops only when `parse_slide_type` finds the input
  exhausted. `Document.Finish` keeps the check, and `Document.SlideLoop`
  states why it is dead.

Some definitions state what the source computes and carry no contract of
their own. The lemmas in the table below are about them:

- `Inline.Format` (`keynotec/parser.py:390-421`): the text the formatting
  loop makes, for a set of open markers.
- `Items.Walk`, `Items.ProcessItems` and `Items.Render`
  (`keynotec/parser.py:324-341`): the pieces the `for` loop and the final
  flush write, and their text.
- `Slides.Transitions` (`keynotec/parser.py:110-116`): the five transition
  names with their effect and direction.
- `Slides.TransitionFrame` (`keynotec/parser.py:106-108`, `121-126`): a slide
  inside the background-canvas template.
- `Slides.KindName` and `Slides.KindNames` (`keynotec/parser.py:89-99`): the
  keywords of the nine productions.
- `Slides.CitationFrame` (`keynotec/parser.py:189`),
  `Slides.FourImagesText` (`keynotec/parser.py:228`),
  `Slides.CodeFrame` (`keynotec/parser.py:238-243`),
  `Slides.ItemsFrame` (`keynotec/parser.py:271-273`), and
  `Slides.Column`, `Slides.ImageBox` and `Slides.ItemsImageFrame`
  (`keynotec/parser.py:297-312`): the LaTeX templates of the slides.
- `Run.Defaults` (`keynotec/__init__.py:32-41`): the table of defaults.
- `Run.PageNumber` (`keynotec/__init__.py:68-74`): the page-number line.

## Model

| member | source | states |
|---|---|---|
| Cursors.Strip | keynotec/parser.py:386 | `str.strip()`: the result is the text after the leading white space, cut before trailing white space only, and neither of its ends is white space |
| Cursors.StripUnchanged | keynotec/parser.py:386 | a text with no strip-able character at either end is unchanged by `strip()` |
| Cursors.SkipSpace | keynotec/parser.py:463-473 | skip_space: an exhausted or empty cursor becomes exhausted on the same line; otherwise the result is a suffix of the text that starts with no white space, and the line grows by the number of newlines skipped |
| Cursors.SkipSpaceDropsWhite | keynotec/parser.py:469 | everything skip_space drops is white space |
| Cursors.SkipSpaceScan | keynotec/parser.py:463-473 | the index loop of skip_space, with its newline counter, computes `SkipSpace` |
| Cursors.SkipSpaceBlank | keynotec/parser.py:466-473 | skip_space runs out of text exactly when only white space is left |
| Cursors.NoSpaceSkipped | keynotec/parser.py:463-473 | a text that starts with no white space is left as it is, line included |
| Cursors.OneSpaceSkipped | keynotec/parser.py:463-473 | one blank in front of text that starts with no white space is skipped, on the same line |
| Cursors.NewlineSkipped | keynotec/parser.py:463-473 | one newline in front of text that starts with no white space is skipped, and the line grows by one |
| Cursors.PrefixWhile | keynotec/parser.py:468-472 | the index loop of skip_space stops inside the text, at the first character that is not white space |
| Cursors.IndexOf | keynotec/parser.py:429-431 | the loop of parse_image stops at the first `]`, and runs to the end exactly when there is none |
| Cursors.NextToken | keynotec/parser.py:476-484 | next_token: no token exactly when the cursor is exhausted afterwards; otherwise the skipped text is the token (letters and digits only) followed by the rest, and the rest does not start with a letter or digit |
| Cursors.NextTokenScan | keynotec/parser.py:476-484 | the index loop of next_token computes `NextToken` |
| Cursors.TokenRoundTrip | keynotec/parser.py:476-484 | a run of letters and digits before anything else is read back as the token, and the cursor lands right behind it on the same line |
| Cursors.ParseString | keynotec/parser.py:380-387 | parse_STRING: it succeeds exactly on a non-exhausted cursor (otherwise `len(None)` crashes); the text holds no newline, and the line rises by exactly one |
| Cursors.ParseStringLine | keynotec/parser.py:380-387 | the text is the stripped text before the first newline and the cursor is everything after it; without a newline, the whole text is taken and nothing is left |
| Cursors.ParseStringScan | keynotec/parser.py:380-387 | the index loop of parse_STRING computes `ParseString` |
| Cursors.ParseStringAt | keynotec/parser.py:380-387 | with the first newline at `n`, parse_STRING returns `strip(s[..n])` and `s[n+1..]` on the next line |
| Cursors.OneLine | keynotec/parser.py:380-387 | a line with nothing to strip, followed by its newline, is captured unchanged |
| Cursors.OneLineOf | keynotec/parser.py:380-387 | a line and its newline in front of more text: the stripped line, and the text behind it on the next line |
| Inline.ParseFormattedString | keynotec/parser.py:390-421 | parse_FORMATTED_STRING succeeds exactly when parse_STRING does and the formatting of its line, starting with all four toggles closed, does not crash; it leaves the cursor where parse_STRING does; its only failure is a crash |
| Inline.ParseFormattedStringScan | keynotec/parser.py:390-421 | the while loop that rewrites `value` in place and flips the toggles computes `ParseFormattedString` |
| Inline.ScanAt | keynotec/parser.py:400-420 | one pass of that loop keeps what is still to be produced unchanged, and crashes only where the formatting is undefined |
| Inline.FormatPlainHead | keynotec/parser.py:407-420 | an ordinary character is copied and the scan moves on by one |
| Inline.FormatEscapeHead | keynotec/parser.py:401-406 | `\` before `*`, `/`, `|` or `\` is dropped and the next character is copied without toggling |
| Inline.FormatKeptEscapeHead | keynotec/parser.py:401-408 | `\_`, and `\` before an ordinary character, are kept as two characters |
| Inline.FormatClosingHead | keynotec/parser.py:411-415 | an open marker becomes `}` and is closed |
| Inline.FormatOpeningHead | keynotec/parser.py:411-419 | a closed marker becomes its open tag and is opened, and the character after it is copied without being looked at |
| Inline.FormatOpeningLast | keynotec/parser.py:411-419 | a closed marker at the end of the line becomes its open tag |
| Inline.ScanStep | keynotec/parser.py:400-420 | one pass of the formatting loop consumes at least one character and never more than are left |
| Inline.PlainPrefix | keynotec/parser.py:400-421 | a prefix without `* / _ \| \` passes through unchanged in front of whatever follows |
| Inline.PlainTextUnchanged | keynotec/parser.py:400-421 | a line with none of `* / _ \| \` is returned unchanged |
| Inline.PlainLineUnchanged | keynotec/parser.py:390-421 | on such a line parse_FORMATTED_STRING returns what parse_STRING returns |
| Inline.EscapesAreLiteral | keynotec/parser.py:401-406 | `\*`, `\/`, `\|` and `\\` amid plain text lose the backslash and toggle nothing |
| Inline.EscapedUnderscoreKept | keynotec/parser.py:403-404 | `\_` amid plain text is kept verbatim |
| Inline.SpanIsGrouped | keynotec/parser.py:411-419 | `*text*` (or `/`, `_`, `\|`) amid plain text becomes the open tag, the text and `}` |
| Inline.ClosingAfterPlain | keynotec/parser.py:414-415 | an open marker after plain text closes the group with `}` |
| Inline.CharAfterOpeningIsCopied | keynotec/parser.py:416-420 | the character after an opening marker is copied even when it is itself a marker or a backslash |
| Inline.TrailingBackslashCrashes | keynotec/parser.py:401-402 | a line ending in `\` crashes on `value[i+1]` |
| Inline.Capture | keynotec/parser.py:376 | the line capture of items, titles and citations succeeds only where parse_STRING does, leaves the same cursor, and fails only by a crash |
| Inline.CapturePlain | keynotec.py:324 | on a line without markers, both revisions capture what parse_STRING returns |
| Inline.MarkersKeptByEarly | keynotec.py:328-335 | the earlier revision captures `*text*` as it stands, where the current one groups it as `\textbf{text}` |
| Items.ParseSingleItem | keynotec/parser.py:363-377 | parse_singleitem: an item's level is the number of blanks before its `*`; the cursor never grows, and an item consumes input; the only failure is a crash |
| Items.ItemAt | keynotec/parser.py:375-377 | a captured item line becomes the item at the counted level |
| Items.ParseSingleItemScan | keynotec/parser.py:363-377 | the level loop of parse_singleitem computes `ParseSingleItem` |
| Items.IndentScan | keynotec/parser.py:366-368 | the indent loop counts the leading blanks, and only blanks |
| Items.ItemLevel | keynotec/parser.py:366-374 | an item of level `n` has `*` at index `n` and only blanks before it; a tab does not count toward the indent |
| Items.BlankLineEndsList | keynotec/parser.py:371-372 | a line of blanks yields no item and is consumed, the line number rising by one |
| Items.OtherLineEndsList | keynotec/parser.py:373-374 | a line whose first non-blank is neither `*` nor a newline yields no item and is left unread |
| Items.ParseItems | keynotec/parser.py:344-360 | parse_itemlist: the minimum is the first item's level (0 without items), and every returned item is at least that deep |
| Items.ParseItemList | keynotec/parser.py:344-360 | the loop that appends to `items` computes `ParseItems` |
| Items.ItemLoopKeeps | keynotec/parser.py:349-359 | the loop only appends, keeps the indent rule, and never changes the minimum once an item is read |
| Items.ItemLoopNext | keynotec/parser.py:350-359 | an item no shallower than the first is appended, and the loop goes on behind it |
| Items.ShallowerItemFails | keynotec/parser.py:356-358 | a second item shallower than the first raises "less indentation", with the line after that item |
| Items.ItemLoopShallower | keynotec/parser.py:356-358 | any later item shallower than the first fails the list |
| Items.ItemListStops | keynotec/parser.py:351-352 | the list ends where an item is missing, with the items read so far |
| Items.ItemLoop | keynotec/parser.py:349-359 | the rest of the loop of parse_itemlist never moves the cursor back |
| Items.ItemLoopCrash | keynotec/parser.py:350 | a crash of parse_singleitem fails the whole list |
| Items.ProcessItemsScan | keynotec/parser.py:324-341 | the loops that grow `result` and push and pop `stack` compute the pieces of `ProcessItems`, written out; a pop of an empty stack is a crash |
| Items.ItemStep | keynotec/parser.py:330-338 | one pass of the `for` loop adds the next step of `Walk` to the output: a deeper item pushes a closing string and opens a list, a shallower one pops one, every item writes `\item text`; the stack holds only closing strings; a crash happens only where `Walk` is undefined |
| Items.Flush | keynotec/parser.py:339-340 | the last loop appends one `\end{itemize}` per string on the stack |
| Items.WalkCounts | keynotec/parser.py:330-338 | the loop opens one list per rise and closes one per drop; the stack ends rises minus drops deeper |
| Items.WalkEntries | keynotec/parser.py:330-338 | the loop writes one entry per item, in the items' order |
| Items.ProcessItemsBalanced | keynotec/parser.py:324-341 | when process_items completes, `\begin{itemize}` and `\end{itemize}` occur equally often (once more than the rises), and the `\item`s are the item texts in order |
| Items.WalkDefined | keynotec/parser.py:331-333 | the loop completes exactly when no prefix of the items closes more lists than the stack held plus those it opened |
| Items.ProcessItemsDefined | keynotec/parser.py:324-341 | process_items completes exactly when no prefix drops more often than once plus its rises |
| Items.OneEndPerDrop | keynotec/parser.py:331-333 | a drop of four blanks closes one list, not two |
| Items.StepwiseReturnCrashes | keynotec/parser.py:331-332 | items that return to the first level in several drops pop the stack empty and crash, though all respect the indent rule |
| Parts.ParseImage | keynotec/parser.py:424-437 | parse_image: no image, and the cursor unchanged, unless the text starts with `[`; the line never changes; an image consumes input |
| Parts.ParseImageScan | keynotec/parser.py:424-437 | the index loop of parse_image computes `ParseImage` |
| Parts.ImageRoundTrip | keynotec/parser.py:424-437 | `[path]rest` is read back as `path`, with `rest` on the same line |
| Parts.ImageIsBracketed | keynotec/parser.py:424-437 | an image read is the text between `[` and the first `]`, and the cursor is what follows that `]` |
| Parts.ImageOpenAtEndIff | keynotec/parser.py:430-434 | "Image open at end of file" is raised exactly when the text starts with `[` and holds no `]` |
| Parts.ParseTitle | keynotec/parser.py:440-448 | parse_title: no title leaves the cursor as it was, white space included; a title moves to a later line |
| Parts.NoHashNoTitle | keynotec/parser.py:443-444 | text that does not start with `#` after white space is no title and stays unread |
| Parts.HashFirst | keynotec/parser.py:443-448 | at a `#`, the title is what follows it |
| Parts.HashTitle | keynotec/parser.py:445-448 | a title read after `#` is present, and the cursor moves to the next line |
| Parts.TitleLine | keynotec/parser.py:440-448 | `# text` on its own line, plain and with nothing to strip, is the title `text` |
| Parts.TitleLineThen | keynotec/parser.py:440-448 | `# text` and a line break, whatever follows, is the title `text`, and the cursor moves to the next line |
| Parts.Titled | keynotec/parser.py:448 | a captured line becomes the title, and a failed capture fails the title with the same error |
| Parts.OptionalTitle | keynotec/parser.py:318-321 | optional_title: `""` and the cursor as it was without a title, otherwise the title; it fails exactly when parse_title does |
| Parts.ParseCite | keynotec/parser.py:451-458 | parse_cite: a cite moves the cursor to a later line |
| Parts.CiteNeedsOneDash | keynotec/parser.py:456-457 | "Expected '--'" is raised exactly when neither of the first two characters is `-` |
| Parts.FenceEnd | keynotec/parser.py:254-258 | the scan for the closing fence stops at the first "```", or three characters before the end |
| Parts.FenceScan | keynotec/parser.py:253-258 | the scan loop with its line counter computes `FenceEnd` and counts the newlines of the code |
| Parts.ParseCodeBlock | keynotec/parser.py:247-261 | parse_code_block: the cursor never grows, and the only error on text is "Expected '```'" at the cursor's line |
| Parts.FenceRequired | keynotec/parser.py:250-251 | the block fails exactly when the text does not start with "```", and then with "Expected '```'" |
| Parts.ParseCodeBlockScan | keynotec/parser.py:247-261 | the loop of parse_code_block computes `ParseCodeBlock` |
| Parts.CodeLanguage | keynotec/parser.py:252 | the language line after the fence moves the cursor to the next line |
| Parts.CodeAfter | keynotec/parser.py:253-261 | behind the language line the cursor moves at least one further line down, which is the extra `line += 1`, and never grows |
| Parts.CodeScan | keynotec/parser.py:254-261 | the fence loop and the closing slice compute `CodeAfter` |
| Parts.CodeRoundTrip | keynotec/parser.py:247-261 | the code between the fences is returned verbatim, inline markers included; the line behind the block counts the code's newlines plus two, one more than the block has, because the line is stepped past the language line twice |
| Parts.MissingFence | keynotec/parser.py:255-261 | without a closing fence, the last three characters are dropped as if they were the fence, and no error is raised |
| Slides.ParseTransition | keynotec/parser.py:130-156 | parse_transition: no transition leaves the line unchanged; a transition has a name of non-space characters other than `,` and `)` and a duration of digits and dots; the errors are the missing `:`, the missing `)` and crashes |
| Slides.TransitionAfterParenScan | keynotec/parser.py:140-156 | the name and duration loops compute the transition |
| Slides.TransitionAfterParen | keynotec/parser.py:140-156 | after `(`, the name is a run of characters other than blanks, `,` and `)`; the errors are the missing `)` and crashes |
| Slides.AfterName | keynotec/parser.py:144-156 | after the name, an optional comma and a number, then `)`; the transition keeps the name it was given |
| Slides.AfterNameScan | keynotec/parser.py:144-156 | the method computes `AfterName` |
| Slides.Closing | keynotec/parser.py:154-156 | a transition is returned exactly when a `)` follows, with the cursor behind it on the same line |
| Slides.TransitionRoundTrip | keynotec/parser.py:130-156 | `:(name)` is the transition `name` without a duration, and the cursor lands behind the `)` |
| Slides.TransitionDurationRoundTrip | keynotec/parser.py:130-156 | `:(name, d)` keeps the duration `d` as it was written |
| Slides.DurationRoundTrip | keynotec/parser.py:147-153 | a number in front of `)` is read as the duration |
| Slides.ParseDuration | keynotec/parser.py:147-153 | no duration leaves the cursor as it was; a duration is a number |
| Slides.ParseDurationScan | keynotec/parser.py:147-153 | the digit loop computes `ParseDuration` |
| Slides.Wrap | keynotec/parser.py:105-126 | a transition wraps the slide exactly when its name is in the transition table, in the frame of that name's effect and direction, which is `{...}` with the slide text last; an unknown name raises "Invalid transition" with the given line |
| Slides.DispatchWrapped | keynotec/parser.py:103-127 | after a transition, the slide's text is put in the transition frame with the effect and direction the table gives its name; a name outside the table raises "Invalid transition" with the line after the slide |
| Slides.WrappedCover | keynotec/parser.py:103-127 | a cover page after a known transition is the cover frame inside that transition's frame |
| Slides.TransitionSlide | keynotec/parser.py:81-127 | `:(name)` on one line and `:coverpage` on the next parse as the cover page wrapped in the frame of `name`'s effect and direction, two lines further on |
| Slides.UnknownTransitionRejected | keynotec/parser.py:83-119 | a transition name outside the table raises "Invalid transition", with the line after the slide it precedes |
| Slides.ParseSlideType | keynotec/parser.py:159-167 | parse_slide_type: no type leaves the input exhausted; a type is text without a newline, and the cursor moves to a later line; the only error is "Expected ':'" at the line of the first non-blank character |
| Slides.TypeLine | keynotec/parser.py:166-167 | the type after `:` is text without a newline, and the cursor moves to the next line |
| Slides.NoTypeIffBlank | keynotec/parser.py:159-163 | there is no further slide exactly when only white space is left |
| Slides.TypeOnItsLine | keynotec/parser.py:159-167 | `:type` on its own line is the type `type` |
| Slides.KindOf | keynotec/parser.py:89-99 | the dispatch table: a keyword maps to the production of that name, and only `code` maps to the code production |
| Slides.KindTable | keynotec/parser.py:89-100 | every production has its keyword, and a keyword is found exactly when it is one of the nine |
| Slides.Body | keynotec/parser.py:103 | a production never moves the cursor back; it yields a plugin exactly when it is the code production, and that plugin is a `listings/` entry |
| Slides.BigTitleBody | keynotec/parser.py:176-182 | the big-title slide adds no plugin |
| Slides.BigTitleSlide | keynotec/parser.py:176-182 | `# text` on its line is the slide `\bigtitle{text}`, and the cursor moves to the next line |
| Slides.BigTitleNeedsHash | keynotec/parser.py:178-180 | a big title whose text does not start with `#` raises "Expected '#'" at the slide's line |
| Slides.CitationBody | keynotec/parser.py:185-190 | the citation slide adds no plugin and never moves the cursor back |
| Slides.TitledCitation | keynotec/parser.py:185-190 | `# quote` and then `--author` make `\citation{quote}{author}`, two lines further on |
| Slides.CitationOf | keynotec/parser.py:185-190 | with a title, the citation is that title and the author read after it |
| Slides.BigImageBody | keynotec/parser.py:193-200 | the big-image slide adds no plugin and never moves the cursor back |
| Slides.BigImageSlide | keynotec/parser.py:193-200 | `[path]` is the slide `\bigimage{path}`, with the cursor right behind the `]` |
| Slides.BigImageNeedsImage | keynotec/parser.py:195-198 | a big image whose text does not start with `[` raises "Expecting '['" at the slide's line |
| Slides.TwoImagesBody | keynotec/parser.py:203-215 | the two-images slide adds no plugin and never moves the cursor back |
| Slides.TwoImagesSlide | keynotec/parser.py:203-215 | `[left]` and `[right]` on two lines are `\twoimages{left}{right}`, in that order |
| Slides.NextImage | keynotec/parser.py:221-226 | one image read for the image loops never moves the cursor back |
| Slides.NextImageRoundTrip | keynotec/parser.py:222-227 | `[path]` is read as `path`, and the white space after it is skipped |
| Slides.ImageLine | keynotec/parser.py:222-227 | a bracketed path on its own line is read as that path, and the cursor moves to the next line |
| Slides.NextImageScan | keynotec/parser.py:221-226 | the method computes `NextImage` |
| Slides.FourImagesBody | keynotec/parser.py:218-229 | the four-images slide adds no plugin and never moves the cursor back |
| Slides.FourImagesOf | keynotec/parser.py:218-229 | four images read one after the other fill the four slots of `\fourimages` in the order they were read |
| Slides.FourImagesSlide | keynotec/parser.py:218-229 | four bracketed paths on four lines are `\fourimages{a}{b}{c}{d}` in order, four lines further on |
| Slides.CitationWithoutTitle | keynotec/parser.py:185-190 | a citation without `#` formats `None` in the title's place |
| Slides.UntitledCitation | keynotec/parser.py:185-190 | with no title, the citation is the author read at the cursor |
| Slides.CiteLine | keynotec/parser.py:451-458 | `--author` on its own line is the author |
| Slides.DashCite | keynotec/parser.py:455-458 | at a `-`, the author is the line captured two characters further on |
| Slides.Images | keynotec/parser.py:220-227 | the image loop reads exactly the requested number of images |
| Slides.FourImagesScan | keynotec/parser.py:218-229 | the `for` loop that fills `images` computes the four-images slide |
| Slides.ImagesScan | keynotec/parser.py:220-227 | the image loop as a method computes `Images` |
| Slides.Slots | keynotec/parser.py:220 | `[''] * n` is a list of `n` slots |
| Slides.ImagesFail | keynotec/parser.py:223-226 | a missing image fails the whole slide with that image's error |
| Slides.CodeBody | keynotec/parser.py:232-244 | the code slide adds one `listings/` plugin |
| Slides.CodeSlide | keynotec/parser.py:232-244 | a code slide without a title is the block verbatim in its frame, plus the plugin `listings/<language>` |
| Slides.UntitledCode | keynotec/parser.py:234-244 | with no title, the code slide is the block that starts at the cursor |
| Slides.ItemsBody | keynotec/parser.py:264-274 | the items slide adds no plugin and never moves the cursor back |
| Slides.ItemsSlide | keynotec/parser.py:264-274 | the items slide is the frame of the optional title and the LaTeX of process_items over the parsed list, then the white space is skipped; it fails exactly when process_items crashes |
| Slides.NextLine | keynotec/parser.py:283-286 | skipping the rest of the image line moves the cursor to the next line; the only failure is a crash |
| Slides.NextLineScan | keynotec/parser.py:283-286 | that loop computes `NextLine` |
| Slides.ItemsImageBody | keynotec/parser.py:277-313 | the items+image slide adds no plugin and never moves the cursor back |
| Slides.ImageLeft | keynotec/parser.py:281-290 | the layout with the image first adds no plugin and never moves the cursor back |
| Slides.ImageRight | keynotec/parser.py:289-296 | the layout with the items first adds no plugin and never moves the cursor back |
| Slides.ItemsImageMade | keynotec/parser.py:309-313 | the slide ends where the item list ended and adds no plugin; its only failure is the crash of process_items |
| Slides.ImageLeftSlide | keynotec/parser.py:279-313 | with an image before the list, the frame has the image column first and the list column second, and the cursor is where the list ended |
| Slides.ImageRightSlide | keynotec/parser.py:287-313 | with the image after the list, the list column comes first and the image column second, and the cursor is behind the image |
| Slides.ImageRightMissing | keynotec/parser.py:289-296 | no image before the list and none after it raises "Expected image for items+image slide" |
| Slides.ParseSlide | keynotec/parser.py:81-127 | parse_slide: a slide consumes input, its type is one of the nine keywords, and a plugin comes with code slides and no other; no slide leaves the input exhausted |
| Slides.SlideAfter | keynotec/parser.py:85-87 | no type is no slide, with the input exhausted |
| Slides.Dispatch | keynotec/parser.py:100-103 | the slide keeps the type it was dispatched on; a type outside the nine raises "Invalid slide type" with the line after the type |
| Slides.TransitionFirst | keynotec/parser.py:83-85 | the current parser reads a transition first and parses the slide behind it |
| Slides.DurationIgnored | keynotec/parser.py:109-126 | the duration never reaches the output: `:(name, d)` and `:(name)` in front of the same slide parse alike |
| Slides.TrailingTransitionDropped | keynotec/parser.py:84-87 | a transition with nothing but white space behind it is dropped without an error, whatever its name |
| Slides.UnknownTypeRejected | keynotec/parser.py:100-102 | any type outside the nine keywords raises "Invalid slide type", with the line after the type |
| Slides.NoKeyword | keynotec/parser.py:89-99 | every keyword starts with a lower-case letter |
| Slides.EarlyRejectsTransitions | keynotec.py:80-101 | the earlier revision reads `:(name)` as the type `(name)` and raises "Invalid slide type" |
| Document.Keys | keynotec.py:62-63 | the current parser accepts `slidenumber` as a key, and the earlier one does not |
| Document.ParseMetadataKey | keynotec/parser.py:56-69 | parse_metadata_key: a key is a token of the key set; anything else is no key, with the cursor as it was, white space included |
| Document.ParseMetadataKeyScan | keynotec/parser.py:56-69 | the method computes `ParseMetadataKey` |
| Document.ParseMetadataValue | keynotec/parser.py:72-78 | parse_metadata_value: the value is one line, input is consumed, and the errors are the missing `:` and crashes |
| Document.ParseMetadataValueScan | keynotec/parser.py:72-78 | the method computes `ParseMetadataValue` |
| Document.Metadata | keynotec/parser.py:45-53 | parse_metadata: only keys of the key set are stored, and the block stops where no key follows |
| Document.MetadataFrom | keynotec/parser.py:49-53 | the loop only adds keys |
| Document.ParseMetadataScan | keynotec/parser.py:45-53 | the loop that fills the `metadata` dictionary computes `Metadata` |
| Document.MetadataLine | keynotec/parser.py:49-53 | `key: value` on its own line adds the pair, and the block goes on at the next line |
| Document.ValueLine | keynotec/parser.py:72-78 | `: value` and its newline is the value, with the cursor on the next line |
| Document.ColonFirst | keynotec/parser.py:75-78 | after `:` the value is parse_STRING of the text behind the skipped white space |
| Document.RepeatedKeyLastWins | keynotec/parser.py:53 | a key given twice keeps the value given last |
| Document.SlideNumberKey | keynotec.py:54-68 | `slidenumber` is a key of the current parser; the earlier one ends the block there and leaves the line unread |
| Document.SlideLoop | keynotec/parser.py:29-34 | the slide loop stops only at the end of the input, and every slide it reads is well made |
| Document.PluginPerCodeSlide | keynotec/parser.py:237 | every code slide appends exactly one plugin and no other slide does; each plugin is a `listings/` entry, and duplicates are kept |
| Document.ParseDocument | keynotec/parser.py:25-42 | parse_keynote: a parsed keynote has at least one slide, and only keys of the key set |
| Document.Finish | keynotec/parser.py:35-42 | a keynote exactly when the loop read slides and no input is left, holding the metadata, the slides and the plugins in order; on an exhausted cursor the error is "No slide was defined." |
| Document.NoSlideIffEmpty | keynotec/parser.py:35-36 | a parse that gets through the slide loop fails exactly when it read no slide, and then with "No slide was defined." |
| Document.DocumentSlides | keynotec/parser.py:25-42 | the slides of a parsed keynote are of the nine types, and its plugins are one `listings/` entry per code slide |
| Document.DocumentParsed | keynotec/parser.py:29-34 | the keynote's slides and plugins are those of the slides the loop read, in input order |
| Document.Keynote.constructor | keynotec/parser.py:15-19 | a fresh keynote has no metadata, slides or plugins |
| Document.ParseKeynote | keynotec/parser.py:25-42 | parse_keynote on a fresh `Keynote` succeeds exactly when `ParseDocument` does, and its fields are that document |
| Document.ReadSlides | keynotec/parser.py:29-34 | the slide loop appends each slide to `slides` and each plugin to `plugins`, and leaves `metadata` alone |
| Document.AddSlide | keynotec/parser.py:33 | `keynote.slides.append(slide)`, and the plugin a code slide appends to `keynote.plugins` |
| Document.DocumentIs | keynotec/parser.py:25-42 | a keynote whose metadata parses is what the slide loop and the checks behind it make of the rest |
| Run.SplitOption | keynotec/__init__.py:66 | the option splits into two words exactly when it holds a space |
| Run.SlideNumber | keynotec/__init__.py:65-74 | a one-word option cannot be unpacked; a page-number line is always that of an accepted position and edge |
| Run.Prepare | keynotec/__init__.py:32-74 | the template values are the defaults with every document key overriding its default; a missing `slidenumber` stops at the lookup; the option's outcome is `SlideNumber`'s |
| Run.ValuesCoverTemplate | keynotec/__init__.py:32-60 | the metadata of a parsed keynote adds no placeholder the template lacks |
| Run.KeysHaveDefaults | keynotec/__init__.py:32-41 | every metadata key of either revision has a default |
| Run.EnglishByDefault | keynotec/__init__.py:39 | a document that does not set the language is written in English |
| Run.SplitRoundTrip | keynotec/__init__.py:66 | splitting `h v` at the first space gives back the two words stripped |
| Run.Decided | keynotec/__init__.py:67-74 | `none` first turns page numbers off; a bad first word is rejected by name, and so is a bad second word after a good first one; otherwise the line is written |
| Run.OneWordFails | keynotec/__init__.py:66 | an option without a space fails to unpack |
| Run.NoneAloneFails | keynotec/__init__.py:66 | the default `none` itself cannot be unpacked |
| Run.NoneHidesNumbers | keynotec/__init__.py:67 | `none` followed by anything turns page numbers off |
| Run.PageNumberShown | keynotec/__init__.py:68-74 | an accepted pair writes the `headline` template for `top` and the `footline` template for `bottom`, with the position in brackets |
| Run.BadPositionRejected | keynotec/__init__.py:69-70 | a first word other than `none`, `center`, `left` and `right` raises "Invalid slide number position" |
| Run.BadEdgeRejected | keynotec/__init__.py:71-72 | after an accepted position, a second word other than `top` and `bottom` raises |
| Run.SlideNumberAccepted | keynotec/__init__.py:65-74 | the option is accepted exactly when it has two words and the first is `none`, or the first is a position and the second an edge |
| Run.EarlyKeynoteHasNoOption | keynotec.py:62-63 | the earlier key list has no `slidenumber`, so an early keynote's metadata never holds it |

## Left out

- File reading and writing, the metadata template file, `pkg_resources`, the
  xelatex subprocess and the clean-up of temporary files. These are I/O and
  foreign calls. `Run.Prepare` returns the values and the page-number line
  that `run()` would write.
- The `__main__` block of `keynotec.py` and its debug `print` calls. These
  are I/O.
- The module-level `keynote = Keynote()` singleton, which accumulates across
  calls. `Document.ParseKeynote` fills a fresh `Keynote` on every parse.
- Slides.ParseTransition: the duration is kept as the run of digits and dots
  that `float()` converts, not as the float value, which never reaches the
  output. A run with two or more dots, such as `1.2.3`, is modelled as the
  crash of `float()`; a run like `1.` is accepted, as `float()` accepts it.
- Error messages are modelled as their `ErrorKind` and line, not as text.
  Every Python runtime error (an index past the end, `len(None)`, `None[0]`,
  the failed unpacking of a one-word option) is one kind, `Crash` or
  `NotTwoWords`.
- Once the input is exhausted, skip_space returns the line as a nested tuple
  `(None, line)`. The model keeps the plain line number. The difference only
  shows in the text of a later error message.
- The layout text inside the LaTeX frame templates (blank lines,
  indentation) is copied as constant strings, and nothing is proved about
  that layout text itself.
- Slides.Body: its own contract states only the plugin, the cursor and the
  slide type. The text of each slide type is stated by the lemmas named on
  the lines below.
- Slides.BigTitleBody: its own contract states the plugin and the cursor.
  The text is stated by `BigTitleSlide` and `BigTitleNeedsHash`.
- Slides.CitationBody: its own contract states the plugin and the cursor.
  The text is stated by `TitledCitation` and `CitationWithoutTitle`.
- Slides.BigImageBody: its own contract states the plugin and the cursor.
  The text is stated by `BigImageSlide` and `BigImageNeedsImage`.
- Slides.TwoImagesBody: its own contract states the plugin and the cursor.
  The text is stated by `TwoImagesSlide`.
- Slides.FourImagesBody: its own contract states the plugin and the cursor.
  The text is stated by `FourImagesSlide`.
- Slides.ItemsBody: its own contract states the plugin and the cursor. The
  text is stated by `ItemsSlide`, over the results of the title and
  item-list parsers.
- Slides.ItemsImageBody: its own contract states the plugin and the cursor.
  The text is stated by `ImageLeftSlide` and `ImageRightSlide`, over the
  results of the title and item-list parsers.
- Slides.TwoImagesSlide, Slides.FourImagesSlide, Slides.TitledCitation: the
  output is stated for one image or title per line, with nothing but the
  line break between them. Other white space between the parts is skipped
  by the same `skip_space` and is not stated separately.
- Slides.Images: its own contract states the number of images and that the
  cursor never moves back. The paths read are stated by `FourImagesOf`, for
  the four images that the source's only caller asks for.
- Slides.NextImage: its own contract states that the cursor never moves
  back. The path read is stated by `NextImageRoundTrip` and `ImageLine`.
- Slides.ImageLeft: its own contract states the cursor and the plugin. The frame, image column first, is stated by `ImageLeftSlide`.
- Slides.ImageRight: its own contract states the cursor and the plugin. The frame, items column first, is stated by `ImageRightSlide`
  and the failure by `ImageRightMissing`.
- Slides.ItemsImageMade: its own contract states the cursor, the plugin and
  the crash when the items cannot be rendered.
  The frame it builds is stated by `ImageLeftSlide` and `ImageRightSlide`.
- Slides.TransitionSlide: the wrapped output is proved for a cover page,
  whose text is a constant. For any slide type, `DispatchWrapped` states it
  from whatever the production made.
