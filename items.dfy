/** Item lists: parse_singleitem, parse_itemlist and process_items of
    keynotec/parser.py. The earlier keynotec.py has the same three functions
    and differs only in capturing the item text with plain parse_STRING. */
module Items {
  import opened Cursors
  import opened Inline

  /** One entry of a list: its indent, the number of spaces before its `*`,
      and its text. */
  datatype Item = Item(level: nat, text: string)

  /** What parse_itemlist returns: the first item's indent and the items. */
  datatype ItemList = ItemList(min: nat, items: seq<Item>)

  /** Only a blank counts toward the indent; a tab does not. */
  predicate IsIndent(ch: char) { ch == ' ' }

  // -- parse_singleitem --

  /** parse_singleitem: spaces, `*` and the item text up to the end of the
      line. No item when the text is only spaces (the cursor is then
      exhausted), when the first character after the spaces is a newline (the
      blank line is consumed), or when it is anything but `*` (nothing is
      consumed). */
  function ParseSingleItem(rev: Revision, c: Cursor): (r: Result<(Option<Item>, Cursor)>)
    ensures r.Ok? ==> Follows(c, r.value.1)
    ensures r.Ok? && r.value.0.Some? ==> Remaining(r.value.1) < Remaining(c)
    ensures r.Err? ==> r.error.kind == Crash
    ensures r.Ok? && r.value.0.Some? ==>
      && c.At? && r.value.0.value.level == PrefixWhile(c.text, IsIndent)
      && r.value.0.value.level < |c.text| && c.text[r.value.0.value.level] == '*'
  {
    match c
    case Exhausted(line) => Err(Error(Crash, line))
    case At(s, line) =>
      var level := PrefixWhile(s, IsIndent);
      if level == |s| then Ok((None, Exhausted(line)))
      else if s[level] == '\n' then Ok((None, At(s[level + 1..], line + 1)))
      else if s[level] != '*' then Ok((None, c))
      else ItemAt(level, Capture(rev, SkipSpace(At(s[level + 1..], line))))
  }

  /** The item at indent `level` whose text was captured, if the capture went through. */
  function ItemAt(level: nat, captured: Result<(string, Cursor)>): (r: Result<(Option<Item>, Cursor)>)
    ensures r.Ok? ==> r.value.0.Some? && r.value.0.value.level == level
  {
    var (text, rest) :- captured;
    Ok((Some(Item(level, text)), rest))
  }

  /** parse_singleitem as the source writes it: an index loop over the
      leading blanks. */
  method ParseSingleItemScan(rev: Revision, c: Cursor) returns (r: Result<(Option<Item>, Cursor)>)
    ensures r == ParseSingleItem(rev, c)
  {
    if c.Exhausted? {
      return Err(Error(Crash, c.line));
    }
    var content, line := c.text, c.line;
    var level := IndentScan(content);
    if level == |content| {
      return Ok((None, Exhausted(line)));
    }
    if content[level] == '\n' {
      return Ok((None, At(content[level + 1..], line + 1)));
    }
    if content[level] != '*' {
      return Ok((None, c));
    }
    var captured := Capture(rev, SkipSpace(At(content[level + 1..], line)));
    if captured.Err? {
      return Err(captured.error);
    }
    r := Ok((Some(Item(level, captured.value.0)), captured.value.1));
  }

  /** The index loop of parse_singleitem over the leading blanks. */
  method IndentScan(s: string) returns (level: nat)
    ensures level == PrefixWhile(s, IsIndent)
  {
    level := 0;
    while level < |s| && s[level] == ' '
      invariant 0 <= level <= |s|
      invariant forall i :: 0 <= i < level ==> IsIndent(s[i])
    {
      level := level + 1;
    }
    PrefixWhileUnique(s, IsIndent, level);
  }

  /** An item's level is the number of blanks in front of its `*`. */
  lemma ItemLevel(rev: Revision, c: Cursor, n: nat, text: string, rest: Cursor)
    requires ParseSingleItem(rev, c) == Ok((Some(Item(n, text)), rest))
    ensures c.At? && n < |c.text| && c.text[n] == '*'
    ensures forall i :: 0 <= i < n ==> c.text[i] == ' '
  {
    var s := c.text;
    PrefixWhileKeeps(s, IsIndent);
    forall i | 0 <= i < n
      ensures s[i] == ' '
    {
      assert IsIndent(s[i]);
    }
  }

  /** A line of blanks ends the list and is consumed. */
  lemma BlankLineEndsList(rev: Revision, n: nat, rest: string, line: int)
    ensures ParseSingleItem(rev, At(seq(n, _ => ' ') + "\n" + rest, line)) == Ok((None, At(rest, line + 1)))
  {
    var s := seq(n, _ => ' ') + "\n" + rest;
    assert forall i :: 0 <= i < n ==> IsIndent(s[i]);
    assert s[n] == '\n';
    PrefixWhileUnique(s, IsIndent, n);
    assert s[n + 1..] == rest;
  }

  /** A line whose first character after the blanks is neither `*` nor a
      newline (a tab, a letter, a `:`) ends the list and is left unread. */
  lemma OtherLineEndsList(rev: Revision, c: Cursor)
    requires c.At?
    requires var n := PrefixWhile(c.text, IsIndent);
      n < |c.text| && c.text[n] != '*' && c.text[n] != '\n'
    ensures ParseSingleItem(rev, c) == Ok((None, c))
  {
  }

  // -- parse_itemlist --

  /** The indent rule parse_itemlist keeps: `min` is the first item's indent
      (0 without items) and no item is shallower. */
  predicate Indented(min: nat, items: seq<Item>) {
    && (items == [] ==> min == 0)
    && (items != [] ==> min == items[0].level)
    && forall i :: 0 <= i < |items| ==> items[i].level >= min
  }

  /** The rest of parse_itemlist's loop from cursor `c`, with `items` read
      so far and `min` their minimum: items are read until one of them is
      missing; an item shallower than the first fails with the line after it. */
  function ItemLoop(rev: Revision, c: Cursor, items: seq<Item>, min: nat): (r: Result<(ItemList, Cursor)>)
    requires Indented(min, items)
    ensures r.Ok? ==> Follows(c, r.value.1)
    decreases Remaining(c), 1
  {
    ItemLoopOn(rev, c, ParseSingleItem(rev, c), items, min)
  }

  /** The same loop once parse_singleitem has given `step` at `c`. */
  function ItemLoopOn(rev: Revision, c: Cursor, step: Result<(Option<Item>, Cursor)>, items: seq<Item>, min: nat): (r: Result<(ItemList, Cursor)>)
    requires Indented(min, items)
    requires step.Ok? ==> Follows(c, step.value.1)
    requires step.Ok? && step.value.0.Some? ==> Remaining(step.value.1) < Remaining(c)
    ensures r.Ok? ==> Follows(c, r.value.1)
    decreases Remaining(c), 0
  {
    var (item, rest) :- step;
    match item
    case None => Ok((ItemList(min, items), rest))
    case Some(it) =>
      if items != [] && it.level < min then Err(Error(LessIndentation, rest.line))
      else
        var min' := if items == [] then it.level else min;
        IndentedPush(min, items, it);
        ItemLoop(rev, rest, items + [it], min')
  }

  /** parse_itemlist: the items from `c` on, their minimum indent, and the
      cursor behind them. */
  function ParseItems(rev: Revision, c: Cursor): (r: Result<(ItemList, Cursor)>)
    ensures r.Ok? ==> Follows(c, r.value.1) && Indented(r.value.0.min, r.value.0.items)
  {
    ItemLoopKeeps(rev, c, [], 0);
    ItemLoop(rev, c, [], 0)
  }

  /** The loop only appends, and every item it appends keeps the indent rule. */
  lemma {:induction false} ItemLoopKeeps(rev: Revision, c: Cursor, items: seq<Item>, min: nat)
    requires Indented(min, items)
    ensures var r := ItemLoop(rev, c, items, min);
      r.Ok? ==>
        && items <= r.value.0.items
        && Indented(r.value.0.min, r.value.0.items)
        && (items != [] ==> r.value.0.min == min)
    decreases Remaining(c)
  {
    var step := ParseSingleItem(rev, c);
    if step.Err? {
      ItemLoopCrash(rev, c, items, min);
    } else if step.value.0.None? {
      ItemListStops(rev, c, items, min, step.value.1);
    } else {
      var (item, rest) := step.value;
      var it := item.value;
      if items == [] || it.level >= min {
        var min' := if items == [] then it.level else min;
        ItemLoopNext(rev, c, items, min, it, rest, min');
        ItemLoopKeeps(rev, rest, items + [it], min');
        var r := ItemLoop(rev, rest, items + [it], min');
        if r.Ok? {
          assert items <= items + [it] <= r.value.0.items;
        }
      } else {
        ItemLoopShallower(rev, c, items, min, it, rest);
      }
    }
  }

  /** parse_itemlist as the source writes it: a loop that appends to `items`. */
  method ParseItemList(rev: Revision, c: Cursor) returns (r: Result<(ItemList, Cursor)>)
    ensures r == ParseItems(rev, c)
  {
    var cursor, items, min := c, [], 0;
    while true
      invariant Indented(min, items)
      invariant ItemLoop(rev, c, [], 0) == ItemLoop(rev, cursor, items, min)
      decreases Remaining(cursor)
    {
      var step := ParseSingleItemScan(rev, cursor);
      if step.Err? {
        return Err(step.error);
      }
      var (item, rest) := step.value;
      if item.None? {
        return Ok((ItemList(min, items), rest));
      }
      var min' := min;
      if items == [] {
        min' := item.value.level;
      } else if item.value.level < min {
        return Err(Error(LessIndentation, rest.line));
      }
      ItemLoopNext(rev, cursor, items, min, item.value, rest, min');
      min := min';
      items := items + [item.value];
      cursor := rest;
    }
  }

  /** One more item read by parse_itemlist's loop. */
  lemma ItemLoopNext(rev: Revision, c: Cursor, items: seq<Item>, min: nat, it: Item, rest: Cursor, min': nat)
    requires Indented(min, items) && (items == [] || it.level >= min)
    requires ParseSingleItem(rev, c) == Ok((Some(it), rest))
    requires min' == if items == [] then it.level else min
    ensures Indented(min', items + [it])
    ensures ItemLoop(rev, c, items, min) == ItemLoop(rev, rest, items + [it], min')
  {
    IndentedPush(min, items, it);
    ItemLoopOnNext(rev, c, items, min, it, rest, min');
  }

  lemma ItemLoopOnNext(rev: Revision, c: Cursor, items: seq<Item>, min: nat, it: Item, rest: Cursor, min': nat)
    requires Indented(min, items) && (items == [] || it.level >= min)
    requires Follows(c, rest) && Remaining(rest) < Remaining(c)
    requires min' == if items == [] then it.level else min
    ensures Indented(min', items + [it])
    ensures ItemLoopOn(rev, c, Ok((Some(it), rest)), items, min) == ItemLoop(rev, rest, items + [it], min')
  {
    IndentedPush(min, items, it);
  }

  /** Appending an item no shallower than the first keeps the indent rule. */
  lemma IndentedPush(min: nat, items: seq<Item>, it: Item)
    requires Indented(min, items) && (items == [] || it.level >= min)
    ensures Indented(if items == [] then it.level else min, items + [it])
  {
    var min' := if items == [] then it.level else min;
    var items' := items + [it];
    forall i | 0 <= i < |items'|
      ensures items'[i].level >= min'
    {
      if i < |items| {
        assert items'[i] == items[i];
      }
    }
  }

  /** An item shallower than the first item fails the list, with the line
      after it. */
  lemma ShallowerItemFails(rev: Revision, c: Cursor, first: Item, second: Item, c1: Cursor, c2: Cursor)
    requires ParseSingleItem(rev, c) == Ok((Some(first), c1))
    requires ParseSingleItem(rev, c1) == Ok((Some(second), c2))
    requires second.level < first.level
    ensures ParseItems(rev, c) == Err(Error(LessIndentation, c2.line))
  {
    ItemLoopNext(rev, c, [], 0, first, c1, first.level);
    assert [] + [first] == [first];
    ItemLoopShallower(rev, c1, [first], first.level, second, c2);
  }

  lemma ItemLoopShallower(rev: Revision, c: Cursor, items: seq<Item>, min: nat, it: Item, rest: Cursor)
    requires Indented(min, items) && items != [] && it.level < min
    requires ParseSingleItem(rev, c) == Ok((Some(it), rest))
    ensures ItemLoop(rev, c, items, min) == Err(Error(LessIndentation, rest.line))
  {
  }

  /** A list stops where an item is missing; the line that ends it has been
      read only when it is blank (see BlankLineEndsList, OtherLineEndsList). */
  lemma ItemListStops(rev: Revision, c: Cursor, items: seq<Item>, min: nat, rest: Cursor)
    requires Indented(min, items)
    requires ParseSingleItem(rev, c) == Ok((None, rest))
    ensures ItemLoop(rev, c, items, min) == Ok((ItemList(min, items), rest))
  {
  }

  lemma ItemLoopCrash(rev: Revision, c: Cursor, items: seq<Item>, min: nat)
    requires Indented(min, items) && ParseSingleItem(rev, c).Err?
    ensures ItemLoop(rev, c, items, min).Err?
  {
  }

  // -- process_items --

  /** What process_items writes, piece by piece. */
  datatype Piece = Begin | End | Entry(text: string)

  function PieceText(p: Piece): string {
    match p
    case Begin => "\\begin{itemize}"
    case End => "\\end{itemize}"
    case Entry(t) => "\\item " + t
  }

  /** The pieces written one after the other. */
  function Render(ps: seq<Piece>): string {
    if ps == [] then [] else Render(ps[..|ps| - 1]) + PieceText(ps[|ps| - 1])
  }

  /** `n` closing pieces: the flush of a stack that holds `n` of them. */
  function Ends(n: nat): (r: seq<Piece>)
    ensures |r| == n && forall i :: 0 <= i < n ==> r[i] == End
  {
    seq(n, _ => End)
  }

  /** `p` in front of the pieces of a loop that went through; a crash stays. */
  function Then(p: seq<Piece>, r: Option<(seq<Piece>, nat)>): Option<(seq<Piece>, nat)> {
    match r
    case None => None
    case Some((body, depth)) => Some((p + body, depth))
  }

  /** The body of process_items' `for` loop over `items`, with `last` the
      indent of the previous item and `depth` closing pieces on the stack:
      a deeper item opens a list, a shallower one pops one closing piece
      (or crashes on an empty stack), and every item is written as an entry.
      Gives the pieces and the depth left on the stack. */
  function Walk(last: nat, depth: nat, items: seq<Item>): Option<(seq<Piece>, nat)>
    decreases |items|
  {
    if items == [] then Some(([], depth))
    else
      var it := items[0];
      if it.level < last then
        if depth == 0 then None
        else Then([End, Entry(it.text)], Walk(it.level, depth - 1, items[1..]))
      else if it.level > last then
        Then([Begin, Entry(it.text)], Walk(it.level, depth + 1, items[1..]))
      else
        Then([Entry(it.text)], Walk(last, depth, items[1..]))
  }

  /** process_items: an opening piece, the loop, and the flush of the stack;
      `None` when the loop pops an empty stack. */
  function ProcessItems(list: ItemList): Option<seq<Piece>> {
    match Walk(list.min, 1, list.items)
    case None => None
    case Some((body, depth)) => Some([Begin] + body + Ends(depth))
  }

  /** process_items' output as text. */
  function ItemsText(list: ItemList): Option<string> {
    match ProcessItems(list)
    case None => None
    case Some(ps) => Some(Render(ps))
  }

  /** process_items as the source writes it: `result` grows and a stack of
      closing strings is pushed and popped, then flushed. */
  method ProcessItemsScan(list: ItemList) returns (r: Option<string>)
    ensures r == ItemsText(list)
  {
    var last, result, stack := list.min, PieceText(Begin), [PieceText(End)];
    ghost var body: seq<Piece> := [];
    WalkStart(list);
    var i := 0;
    while i < |list.items|
      invariant 0 <= i <= |list.items|
      invariant forall j :: 0 <= j < |stack| ==> stack[j] == PieceText(End)
      invariant result == Render([Begin] + body)
      invariant Walk(list.min, 1, list.items) == Then(body, Walk(last, |stack|, list.items[i..]))
    {
      var crashed;
      crashed, last, stack, result, body := ItemStep(list, i, last, stack, result, body);
      if crashed {
        return None;
      }
      i := i + 1;
    }
    WalkDone(list, body, last, |stack|);
    result := Flush(result, stack, [Begin] + body);
    r := Some(result);
  }

  /** One pass of process_items' `for` loop, over the item at index `i`. */
  method ItemStep(list: ItemList, i: nat, last: nat, stack: seq<string>, result: string, ghost body: seq<Piece>)
      returns (crashed: bool, last': nat, stack': seq<string>, result': string, ghost body': seq<Piece>)
    requires i < |list.items|
    requires forall j :: 0 <= j < |stack| ==> stack[j] == PieceText(End)
    requires result == Render([Begin] + body)
    requires Walk(list.min, 1, list.items) == Then(body, Walk(last, |stack|, list.items[i..]))
    ensures crashed ==> Walk(list.min, 1, list.items) == None
    ensures !crashed ==> forall j :: 0 <= j < |stack'| ==> stack'[j] == PieceText(End)
    ensures !crashed ==> result' == Render([Begin] + body')
    ensures !crashed ==> Walk(list.min, 1, list.items) == Then(body', Walk(last', |stack'|, list.items[i + 1..]))
  {
    var it := list.items[i];
    var head: string;
    ghost var step: seq<Piece>;
    crashed := false;
    if it.level < last {
      if stack == [] {
        WalkCrash(list.items, i, last);
        return true, last, stack, result, body;
      }
      head, stack' := stack[|stack| - 1], stack[..|stack| - 1];
      step, last' := [End, Entry(it.text)], it.level;
      WalkDrop(list.items, i, last, |stack|, step, last', |stack'|);
      RenderPair(End, Entry(it.text));
    } else if it.level > last {
      head, stack' := PieceText(Begin), stack + [PieceText(End)];
      step, last' := [Begin, Entry(it.text)], it.level;
      WalkRise(list.items, i, last, |stack|, step, last', |stack'|);
      RenderPair(Begin, Entry(it.text));
    } else {
      head, stack' := [], stack;
      step, last' := [Entry(it.text)], last;
      WalkSame(list.items, i, last, |stack|, step);
      RenderSingle(Entry(it.text));
    }
    result' := result + head;
    result' := result' + PieceText(Entry(it.text));
    body' := body + step;
    Rendered(body, step, result, head, PieceText(Entry(it.text)));
    Advance(Walk(list.min, 1, list.items), body, Walk(last, |stack|, list.items[i..]),
            step, Walk(last', |stack'|, list.items[i + 1..]));
  }

  /** process_items' last loop: pop the stack into `result` until it is empty. */
  method Flush(result: string, stack: seq<string>, ghost ps: seq<Piece>) returns (result': string)
    requires forall j :: 0 <= j < |stack| ==> stack[j] == PieceText(End)
    requires result == Render(ps)
    ensures result' == Render(ps + Ends(|stack|))
  {
    var rest := stack;
    ghost var popped := 0;
    result' := result;
    assert ps + Ends(0) == ps;
    while rest != []
      invariant popped + |rest| == |stack|
      invariant forall j :: 0 <= j < |rest| ==> rest[j] == PieceText(End)
      invariant result' == Render(ps + Ends(popped))
    {
      var top := rest[|rest| - 1];
      RenderEnd(ps, popped);
      result' := result' + top;
      rest := rest[..|rest| - 1];
      popped := popped + 1;
    }
  }

  // -- one pass of process_items' loops at a time --

  lemma WalkStart(list: ItemList)
    ensures Render([Begin] + []) == PieceText(Begin)
    ensures Walk(list.min, 1, list.items) == Then([], Walk(list.min, 1, list.items[0..]))
  {
    assert ([Begin] + [])[..0] == [];
    assert list.items[0..] == list.items;
    ThenEmpty(Walk(list.min, 1, list.items));
  }

  lemma WalkCrash(items: seq<Item>, i: nat, last: nat)
    requires i < |items| && items[i].level < last
    ensures Walk(last, 0, items[i..]) == None
  {
    assert items[i..][0] == items[i];
  }

  lemma WalkDrop(items: seq<Item>, i: nat, last: nat, depth: nat, step: seq<Piece>, last': nat, depth': nat)
    requires i < |items| && items[i].level < last && depth > 0
    requires step == [End, Entry(items[i].text)] && last' == items[i].level && depth' == depth - 1
    ensures Walk(last, depth, items[i..]) == Then(step, Walk(last', depth', items[i + 1..]))
  {
    assert items[i..][0] == items[i] && items[i..][1..] == items[i + 1..];
  }

  lemma WalkRise(items: seq<Item>, i: nat, last: nat, depth: nat, step: seq<Piece>, last': nat, depth': nat)
    requires i < |items| && items[i].level > last
    requires step == [Begin, Entry(items[i].text)] && last' == items[i].level && depth' == depth + 1
    ensures Walk(last, depth, items[i..]) == Then(step, Walk(last', depth', items[i + 1..]))
  {
    assert items[i..][0] == items[i] && items[i..][1..] == items[i + 1..];
  }

  lemma WalkSame(items: seq<Item>, i: nat, last: nat, depth: nat, step: seq<Piece>)
    requires i < |items| && items[i].level == last && step == [Entry(items[i].text)]
    ensures Walk(last, depth, items[i..]) == Then(step, Walk(last, depth, items[i + 1..]))
  {
    assert items[i..][0] == items[i] && items[i..][1..] == items[i + 1..];
  }

  lemma WalkDone(list: ItemList, body: seq<Piece>, last: nat, depth: nat)
    requires Walk(list.min, 1, list.items) == Then(body, Walk(last, depth, list.items[|list.items|..]))
    ensures ProcessItems(list) == Some([Begin] + body + Ends(depth))
  {
    assert list.items[|list.items|..] == [];
    assert body + [] == body;
  }

  lemma RenderEnd(ps: seq<Piece>, k: nat)
    ensures Render(ps + Ends(k + 1)) == Render(ps + Ends(k)) + PieceText(End)
  {
    assert ps + Ends(k + 1) == (ps + Ends(k)) + [End];
    RenderAppend(ps + Ends(k), End);
  }

  lemma ThenEmpty(r: Option<(seq<Piece>, nat)>)
    ensures Then([], r) == r
  {
    if r.Some? {
      assert [] + r.value.0 == r.value.0;
    }
  }

  lemma Advance(w: Option<(seq<Piece>, nat)>, body: seq<Piece>, walk: Option<(seq<Piece>, nat)>,
                 step: seq<Piece>, next: Option<(seq<Piece>, nat)>)
    requires w == Then(body, walk) && walk == Then(step, next)
    ensures w == Then(body + step, next)
  {
    ThenTwice(body, step, next);
  }

  lemma ThenTwice(p: seq<Piece>, q: seq<Piece>, r: Option<(seq<Piece>, nat)>)
    ensures Then(p, Then(q, r)) == Then(p + q, r)
  {
    if r.Some? {
      assert p + (q + r.value.0) == p + q + r.value.0;
    }
  }

  lemma RenderAppend(ps: seq<Piece>, p: Piece)
    ensures Render(ps + [p]) == Render(ps) + PieceText(p)
  {
    assert (ps + [p])[..|ps|] == ps;
  }

  lemma RenderSingle(a: Piece)
    ensures Render([a]) == [] + PieceText(a)
  {
    assert [a][..0] == [];
  }

  lemma Rendered(body: seq<Piece>, step: seq<Piece>, result: string, head: string, entry: string)
    requires result == Render([Begin] + body)
    requires Render(step) == head + entry
    ensures result + head + entry == Render([Begin] + (body + step))
  {
    PieceAssoc([Begin], body, step);
    RenderConcat([Begin] + body, step);
    Assoc(result, head, entry);
  }

  lemma PieceAssoc(a: seq<Piece>, b: seq<Piece>, c: seq<Piece>)
    ensures a + (b + c) == (a + b) + c
  {
  }

  lemma RenderPair(a: Piece, b: Piece)
    ensures Render([a, b]) == PieceText(a) + PieceText(b)
  {
    assert [a, b][..1] == [a];
    RenderSingle(a);
    assert [] + PieceText(a) == PieceText(a);
  }

  /** Rendering pieces one after the other is rendering each part in turn. */
  lemma {:induction false} RenderConcat(a: seq<Piece>, b: seq<Piece>)
    ensures Render(a + b) == Render(a) + Render(b)
    decreases |b|
  {
    if b != [] {
      var init, x := b[..|b| - 1], b[|b| - 1];
      assert init + [x] == b;
      PieceAssoc(a, init, [x]);
      RenderAppend(a + init, x);
      RenderConcat(a, init);
      RenderAppend(init, x);
    } else {
      assert a + b == a;
    }
  }

  // -- what process_items promises --

  /** How many items are deeper than the item before them, the first item
      being compared with `last`. */
  function Rises(last: nat, items: seq<Item>): nat
    decreases |items|
  {
    if items == [] then 0
    else (if items[0].level > last then 1 else 0) + Rises(items[0].level, items[1..])
  }

  /** How many items are shallower than the item before them. */
  function Drops(last: nat, items: seq<Item>): nat
    decreases |items|
  {
    if items == [] then 0
    else (if items[0].level < last then 1 else 0) + Drops(items[0].level, items[1..])
  }

  /** The items' texts, in order. */
  function Texts(items: seq<Item>): seq<string> {
    seq(|items|, i requires 0 <= i < |items| => items[i].text)
  }

  /** The texts of the entries among `ps`, in order. */
  function Entries(ps: seq<Piece>): seq<string> {
    if ps == [] then [] else (if ps[0].Entry? then [ps[0].text] else []) + Entries(ps[1..])
  }

  /** How often `p` occurs among `ps`. */
  function Count(ps: seq<Piece>, p: Piece): nat {
    multiset(ps)[p]
  }

  /** The loop opens one list per rise and closes exactly one per drop,
      however large the drop; the stack ends `Rises - Drops` deeper. */
  lemma {:induction false} WalkCounts(last: nat, depth: nat, items: seq<Item>)
    requires Walk(last, depth, items).Some?
    ensures var (body, d) := Walk(last, depth, items).value;
      && Count(body, Begin) == Rises(last, items)
      && Count(body, End) == Drops(last, items)
      && d + Drops(last, items) == depth + Rises(last, items)
    decreases |items|
  {
    if items != [] {
      var it := items[0];
      var (step, last', depth') :=
        if it.level < last then ([End, Entry(it.text)], it.level, depth - 1)
        else if it.level > last then ([Begin, Entry(it.text)], it.level, depth + 1)
        else ([Entry(it.text)], last, depth);
      var r := Walk(last', depth', items[1..]);
      assert Walk(last, depth, items) == Then(step, r);
      WalkCounts(last', depth', items[1..]);
      ThenCount(step, r, Begin);
      ThenCount(step, r, End);
      var head := if it.level < last then End else Begin;
      StepCount(head, it.text, Begin);
      StepCount(head, it.text, End);
    }
  }

  /** An opening or closing piece is counted once in a step, and never
      among entries. */
  lemma StepCount(head: Piece, text: string, p: Piece)
    requires !p.Entry?
    ensures Count([head, Entry(text)], p) == if head == p then 1 else 0
    ensures Count([Entry(text)], p) == 0
  {
    assert [head, Entry(text)] == [head] + [Entry(text)];
  }

  /** Pieces in front of the loop's own add to its counts. */
  lemma ThenCount(step: seq<Piece>, r: Option<(seq<Piece>, nat)>, p: Piece)
    requires r.Some?
    ensures Count(Then(step, r).value.0, p) == Count(step, p) + Count(r.value.0, p)
  {
    assert Then(step, r).value.0 == step + r.value.0;
  }

  /** The loop writes one entry per item, in the items' order. */
  lemma {:induction false} WalkEntries(last: nat, depth: nat, items: seq<Item>)
    requires Walk(last, depth, items).Some?
    ensures Entries(Walk(last, depth, items).value.0) == Texts(items)
    decreases |items|
  {
    if items != [] {
      var it := items[0];
      var (step, last', depth') :=
        if it.level < last then ([End, Entry(it.text)], it.level, depth - 1)
        else if it.level > last then ([Begin, Entry(it.text)], it.level, depth + 1)
        else ([Entry(it.text)], last, depth);
      assert Walk(last, depth, items) == Then(step, Walk(last', depth', items[1..]));
      WalkEntries(last', depth', items[1..]);
      ThenEntries(step, Walk(last', depth', items[1..]), it.text);
      TextsCons(items);
    }
  }

  /** One step of the loop adds the entry `text` in front of the rest. */
  lemma ThenEntries(step: seq<Piece>, r: Option<(seq<Piece>, nat)>, text: string)
    requires r.Some?
    requires step == [End, Entry(text)] || step == [Begin, Entry(text)] || step == [Entry(text)]
    ensures Entries(Then(step, r).value.0) == [text] + Entries(r.value.0)
  {
    EntriesConcat(step, r.value.0);
    assert Entries(step) == [text];
  }

  lemma TextsCons(items: seq<Item>)
    requires items != []
    ensures Texts(items) == [items[0].text] + Texts(items[1..])
  {
  }

  lemma {:induction false} EntriesConcat(a: seq<Piece>, b: seq<Piece>)
    ensures Entries(a + b) == Entries(a) + Entries(b)
    decreases |a|
  {
    if a == [] {
      assert a + b == b;
    } else {
      var head := if a[0].Entry? then [a[0].text] else [];
      assert (a + b)[0] == a[0];
      assert (a + b)[1..] == a[1..] + b;
      EntriesConcat(a[1..], b);
      calc {
        Entries(a + b);
        head + Entries(a[1..] + b);
        head + (Entries(a[1..]) + Entries(b));
        (head + Entries(a[1..])) + Entries(b);
        Entries(a) + Entries(b);
      }
    }
  }

  /** The closing pieces of the final flush: no entries, no openings. */
  lemma {:induction false} EndsOnly(n: nat)
    ensures Count(Ends(n), End) == n && Count(Ends(n), Begin) == 0
    ensures Entries(Ends(n)) == []
  {
    if n > 0 {
      EndsOnly(n - 1);
      assert Ends(n) == [End] + Ends(n - 1);
    }
  }

  /** process_items, when it completes, opens as many lists as it closes:
      the outer one and one per rise; and it writes one `\item` per item, in
      order. */
  lemma ProcessItemsBalanced(list: ItemList)
    requires ProcessItems(list).Some?
    ensures var ps := ProcessItems(list).value;
      && Count(ps, Begin) == Count(ps, End) == 1 + Rises(list.min, list.items)
      && Entries(ps) == Texts(list.items)
  {
    var (body, d) := Walk(list.min, 1, list.items).value;
    WalkCounts(list.min, 1, list.items);
    WalkEntries(list.min, 1, list.items);
    EndsOnly(d);
    EntriesConcat([Begin] + body, Ends(d));
    EntriesConcat([Begin], body);
    assert Entries([Begin]) == [];
  }

  /** The loop goes through exactly when no prefix of the items closes more
      lists than the stack held plus those it opened. */
  lemma {:induction false} WalkDefined(last: nat, depth: nat, items: seq<Item>)
    ensures Walk(last, depth, items).Some?
        <==> forall k :: 0 <= k <= |items| ==> Drops(last, items[..k]) <= depth + Rises(last, items[..k])
    decreases |items|
  {
    if items == [] {
      assert items[..0] == [];
    } else {
      var it := items[0];
      var (last', depth') :=
        if it.level < last then (it.level, depth - 1)
        else if it.level > last then (it.level, depth + 1)
        else (last, depth);
      var tail := items[1..];
      var up, down := if it.level > last then 1 else 0, if it.level < last then 1 else 0;
      forall k | 1 <= k <= |items|
        ensures Drops(last, items[..k]) == down + Drops(it.level, tail[..k - 1])
        ensures Rises(last, items[..k]) == up + Rises(it.level, tail[..k - 1])
      {
        assert items[..k][0] == it && items[..k][1..] == tail[..k - 1];
      }
      assert items[..0] == [];
      if it.level < last && depth == 0 {
        assert items[..1] == [it] && tail[..0] == [];
        assert Drops(last, items[..1]) > depth + Rises(last, items[..1]);
      } else {
        WalkDefined(last', depth', tail);
        assert it.level == last ==> last' == it.level;
        assert Walk(last, depth, items).Some? <==> Walk(last', depth', tail).Some?;
        if Walk(last', depth', tail).Some? {
          forall k | 0 <= k <= |items|
            ensures Drops(last, items[..k]) <= depth + Rises(last, items[..k])
          {
            if k > 0 {
              assert 0 <= k - 1 <= |tail|;
            }
          }
        } else {
          var j :| 0 <= j <= |tail| && Drops(last', tail[..j]) > depth' + Rises(last', tail[..j]);
          assert Drops(last, items[..j + 1]) > depth + Rises(last, items[..j + 1]);
        }
      }
    }
  }

  /** process_items completes exactly when no prefix of the list closes more
      than the outer list and the ones it opened. */
  lemma ProcessItemsDefined(list: ItemList)
    ensures ProcessItems(list).Some?
        <==> forall k :: 0 <= k <= |list.items| ==>
               Drops(list.min, list.items[..k]) <= 1 + Rises(list.min, list.items[..k])
  {
    WalkDefined(list.min, 1, list.items);
  }

  /** A drop of four blanks closes one list, not two. */
  lemma OneEndPerDrop()
    ensures ProcessItems(ItemList(0, [Item(0, "a"), Item(4, "b"), Item(0, "c")]))
         == Some([Begin, Entry("a"), Begin, Entry("b"), End, Entry("c"), End])
  {
    var items := [Item(0, "a"), Item(4, "b"), Item(0, "c")];
    assert items[1..] == [Item(4, "b"), Item(0, "c")] && items[1..][1..] == [Item(0, "c")];
    assert items[1..][1..][1..] == [];
    assert [Item(0, "c")][1..] == [];
    assert [End, Entry("c")] + [] == [End, Entry("c")];
    assert Walk(4, 2, [Item(0, "c")]) == Some(([End, Entry("c")], 1));
    assert [Begin, Entry("b")] + [End, Entry("c")] == [Begin, Entry("b"), End, Entry("c")];
    assert [Entry("a")] + [Begin, Entry("b"), End, Entry("c")] == [Entry("a"), Begin, Entry("b"), End, Entry("c")];
    assert Walk(0, 1, items[1..]) == Some(([Begin, Entry("b"), End, Entry("c")], 1));
    assert Walk(0, 1, items) == Some(([Entry("a"), Begin, Entry("b"), End, Entry("c")], 1));
    assert Ends(1) == [End];
    assert [Begin] + [Entry("a"), Begin, Entry("b"), End, Entry("c")] + [End]
        == [Begin, Entry("a"), Begin, Entry("b"), End, Entry("c"), End];
  }

  /** Dropping back past the first item's level in steps pops the stack empty
      and crashes, though every item is at least as deep as the first. */
  lemma StepwiseReturnCrashes()
    ensures var items := [Item(0, "a"), Item(4, "b"), Item(2, "c"), Item(1, "d"), Item(0, "e")];
      && Indented(0, items)
      && ProcessItems(ItemList(0, items)) == None
  {
    var items := [Item(0, "a"), Item(4, "b"), Item(2, "c"), Item(1, "d"), Item(0, "e")];
    assert items[1..] == [Item(4, "b"), Item(2, "c"), Item(1, "d"), Item(0, "e")];
    assert items[2..] == [Item(2, "c"), Item(1, "d"), Item(0, "e")] == items[1..][1..];
    assert items[3..] == [Item(1, "d"), Item(0, "e")] == items[2..][1..];
    assert items[4..] == [Item(0, "e")] == items[3..][1..];
  }
}
