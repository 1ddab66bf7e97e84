/**
 * Printing the results of a query (print_results in src/main.c). Output is
 * modelled as tokens: the padding and row-ending newlines, the verse numbers
 * of list mode and the "verse text" lines of text mode; printf's padding and
 * format are not modelled.
 */
module Results {
  import opened Wrappers
  import opened CStrings
  import opened Bridge

  datatype Token = NoResults | Newline | Number(verse: int) | Line(verse: int, text: CString)

  /** One verse the iterator delivers: its number and its text. */
  datatype Verse = Verse(number: int, text: CString)

  /** The verses an iterator bound to `m` delivers for `locs`. */
  function Delivered(m: Module, locs: seq<Location>): seq<Verse>
  {
    seq(|locs|, i requires 0 <= i < |locs| => Verse(locs[i].verse, m.text(locs[i])))
  }

  /** What list mode prints for the `count`-th verse: its number, and a newline after every 10th. */
  function GridCell(count: int, verse: int): seq<Token>
  {
    [Number(verse)] + (if count % 10 == 0 then [Newline] else [])
  }

  /** The list-mode loop output for `vs` when `c` verses were printed before them. */
  function GridBody(vs: seq<Verse>, c: nat): seq<Token>
  {
    if vs == [] then []
    else GridBody(vs[..|vs| - 1], c) + GridCell(c + |vs|, vs[|vs| - 1].number)
  }

  /** List mode: the loop output, then one more newline unless the count is a multiple of 10. */
  function Grid(vs: seq<Verse>): seq<Token>
  {
    GridBody(vs, 0) + (if |vs| % 10 != 0 then [Newline] else [])
  }

  /** Text mode: one line per verse. */
  function TextLines(vs: seq<Verse>): seq<Token>
  {
    if vs == [] then [] else TextLines(vs[..|vs| - 1]) + [Line(vs[|vs| - 1].number, vs[|vs| - 1].text)]
  }

  /** What the loop of print_results has printed after the verses `vs`. */
  function LoopOutput(vs: seq<Verse>, listMode: bool): seq<Token>
  {
    if listMode then GridBody(vs, 0) else TextLines(vs)
  }

  /** Everything between the two padding newlines. */
  function Emitted(vs: seq<Verse>, listMode: bool): seq<Token>
  {
    if listMode then Grid(vs) else TextLines(vs)
  }

  /** What print_results prints for the outcome of a query. */
  function Printed(res: Option<Resolution>, listMode: bool): seq<Token>
  {
    match res
    case None => [NoResults]
    case Some(r) => [Newline] + Emitted(Delivered(r.swModule, r.list), listMode) + [Newline]
  }

  /**
   * print_results: for a null iterator the "no results" message; otherwise the
   * iterator is drained, every location it still had is printed exactly once,
   * in order, and `count` is their number.
   */
  method PrintResults(iter: SwordIterator?, listMode: bool) returns (out: seq<Token>, count: nat)
    requires iter != null ==> iter.Valid()
    modifies iter
    ensures iter == null ==> out == [NoResults] && count == 0
    ensures iter != null ==>
      iter.Valid() && iter.Remaining() == [] && count == |old(iter.Remaining())| &&
      out == [Newline] + Emitted(Delivered(iter.swModule, old(iter.Remaining())), listMode) + [Newline]
  {
    if iter == null {
      return [NoResults], 0;
    }
    out, count := PrintLoop(iter, listMode);
    if listMode && count % 10 != 0 {
      out := out + [Newline];
    }
    out := out + [Newline];
  }

  /** The loop of print_results: every verse the iterator still has, printed in order. */
  method PrintLoop(iter: SwordIterator, listMode: bool) returns (out: seq<Token>, count: nat)
    requires iter.Valid()
    modifies iter
    ensures iter.Valid() && iter.Remaining() == [] && count == |old(iter.Remaining())|
    ensures out == [Newline] + LoopOutput(Delivered(iter.swModule, old(iter.Remaining())), listMode)
  {
    ghost var locs := iter.Remaining();
    ghost var seen: seq<Verse> := [];
    var verseNum := new VerseCell(0);
    count := 0;
    out := [Newline];
    while true
      invariant iter.Valid() && count <= |locs| && iter.Remaining() == locs[count..]
      invariant seen == Delivered(iter.swModule, locs[..count])
      invariant out == [Newline] + LoopOutput(seen, listMode)
      decreases |iter.Remaining()|
    {
      var text := IteratorNext(iter, verseNum);
      if text.None? {
        break;
      }
      ghost var v := Verse(verseNum.value, text.value);
      var printed := PrintVerse(count + 1, verseNum.value, text.value, listMode);
      PrintedStep(iter.swModule, locs, count, seen, v, listMode, out, printed);
      count := count + 1;
      seen := seen + [v];
      out := out + printed;
    }
    assert locs[..count] == locs;
  }

  /** The body of the print loop for the `count`-th verse. */
  method PrintVerse(count: nat, verse: int, text: CString, listMode: bool) returns (printed: seq<Token>)
    ensures listMode ==> printed == GridCell(count, verse)
    ensures !listMode ==> printed == [Line(verse, text)]
  {
    if listMode {
      printed := [Number(verse)];
      if count % 10 == 0 {
        printed := printed + [Newline];
      }
    } else {
      printed := [Line(verse, text)];
    }
  }

  /**
   * One more location delivers one more verse. Kept as its own lemma so that
   * PrintedStep does not unfold Delivered on two prefixes at once.
   */
  lemma DeliveredSnoc(m: Module, locs: seq<Location>, k: nat)
    requires k < |locs|
    ensures Delivered(m, locs[..k + 1]) == Delivered(m, locs[..k]) + [Verse(locs[k].verse, m.text(locs[k]))]
  {
  }

  /** Printing the next delivered verse keeps the output equal to the loop output of the verses seen. */
  lemma PrintedStep(m: Module, locs: seq<Location>, count: nat, seen: seq<Verse>, v: Verse,
                    listMode: bool, out: seq<Token>, printed: seq<Token>)
    requires count < |locs| && seen == Delivered(m, locs[..count])
    requires v == Verse(locs[count].verse, m.text(locs[count]))
    requires out == [Newline] + LoopOutput(seen, listMode)
    requires printed == if listMode then GridCell(count + 1, v.number) else [Line(v.number, v.text)]
    ensures seen + [v] == Delivered(m, locs[..count + 1])
    ensures out + printed == [Newline] + LoopOutput(seen + [v], listMode)
  {
    DeliveredSnoc(m, locs, count);
    LoopOutputStep(seen, v, listMode);
  }

  /** One more verse adds exactly what the loop body prints for it. */
  lemma LoopOutputStep(vs: seq<Verse>, v: Verse, listMode: bool)
    ensures LoopOutput(vs + [v], listMode) ==
      LoopOutput(vs, listMode) + (if listMode then GridCell(|vs| + 1, v.number) else [Line(v.number, v.text)])
  {
    assert (vs + [v])[..|vs + [v]| - 1] == vs;
  }

  // ---- The grid as rows of ten ----

  /** The verse numbers alone. */
  function Numbers(vs: seq<Verse>): seq<Token>
  {
    if vs == [] then [] else Numbers(vs[..|vs| - 1]) + [Number(vs[|vs| - 1].number)]
  }

  /** One row of the grid: its numbers and the newline that ends it. */
  function Row(vs: seq<Verse>): seq<Token>
  {
    Numbers(vs) + [Newline]
  }

  /** The grid as intended: rows of ten, the last one shorter when the count is not a multiple of ten. */
  function Rows(vs: seq<Verse>): seq<Token>
    decreases |vs|
  {
    if vs == [] then []
    else if |vs| <= 10 then Row(vs)
    else Row(vs[..10]) + Rows(vs[10..])
  }

  function NewlineCount(ts: seq<Token>): nat
  {
    if ts == [] then 0
    else NewlineCount(ts[..|ts| - 1]) + (if ts[|ts| - 1] == Newline then 1 else 0)
  }

  lemma {:induction false} GridBodySplit(a: seq<Verse>, b: seq<Verse>, c: nat)
    ensures GridBody(a + b, c) == GridBody(a, c) + GridBody(b, c + |a|)
    decreases |b|
  {
    if b == [] {
      assert a + b == a;
    } else {
      var b' := b[..|b| - 1];
      assert (a + b)[..|a + b| - 1] == a + b';
      assert (a + b)[|a + b| - 1] == b[|b| - 1];
      GridBodySplit(a, b', c);
    }
  }

  lemma {:induction false} GridBodyShift(vs: seq<Verse>, c: nat)
    ensures GridBody(vs, c + 10) == GridBody(vs, c)
    decreases |vs|
  {
    if vs != [] {
      var init, last := vs[..|vs| - 1], vs[|vs| - 1].number;
      GridBodyShift(init, c);
      ModTenShift(c + |vs|);
      assert GridCell(c + 10 + |vs|, last) == GridCell(c + |vs|, last);
    }
  }

  /**
   * Kept as its own lemma, like ModTenNoWrap below, so that the grid proofs
   * see one fact about `%` instead of reasoning about it in a large context.
   */
  lemma ModTenShift(n: nat)
    ensures (n + 10) % 10 == n % 10
  {
  }

  /** Within one row, a column short of the tenth never wraps to 0. */
  lemma ModTenNoWrap(c: nat, k: nat)
    requires c % 10 + k < 10 && k > 0
    ensures (c + k) % 10 != 0
  {
  }

  lemma {:induction false} GridBodyNoBreak(vs: seq<Verse>, c: nat)
    requires c % 10 + |vs| < 10
    ensures GridBody(vs, c) == Numbers(vs)
    decreases |vs|
  {
    if vs != [] {
      var init, last := vs[..|vs| - 1], vs[|vs| - 1].number;
      GridBodyNoBreak(init, c);
      ModTenNoWrap(c, |vs|);
      assert GridCell(c + |vs|, last) == [Number(last)];
      assert GridBody(vs, c) == GridBody(init, c) + GridCell(c + |vs|, last);
      assert Numbers(vs) == Numbers(init) + [Number(last)];
    }
  }

  lemma {:induction false} GridBodyFullRow(vs: seq<Verse>, c: nat)
    requires |vs| == 10 && c % 10 == 0
    ensures GridBody(vs, c) == Row(vs)
  {
    var init, last := vs[..9], vs[9].number;
    assert vs[..|vs| - 1] == init;
    GridBodyNoBreak(init, c);
    ModTenShift(c);
    assert GridCell(c + 10, last) == [Number(last), Newline];
    assert GridBody(vs, c) == Numbers(init) + [Number(last), Newline];
    assert Numbers(vs) == Numbers(init) + [Number(last)];
  }

  /**
   * The list-mode output of print_results is the grid of rows of ten: a newline
   * after every 10th number, plus one after a shorter last row.
   */
  lemma {:induction false} GridIsRows(vs: seq<Verse>)
    ensures Grid(vs) == Rows(vs)
    decreases |vs|
  {
    if vs == [] {
    } else if |vs| < 10 {
      GridBodyNoBreak(vs, 0);
      assert Grid(vs) == Numbers(vs) + [Newline];
    } else if |vs| == 10 {
      GridBodyFullRow(vs, 0);
      assert Grid(vs) == GridBody(vs, 0) + [];
    } else {
      GridPeelRow(vs);
      GridIsRows(vs[10..]);
    }
  }

  /** Past the first ten verses, the grid is the first row and the grid of the rest. */
  lemma GridPeelRow(vs: seq<Verse>)
    requires |vs| > 10
    ensures Grid(vs) == Row(vs[..10]) + Grid(vs[10..])
  {
    var first, rest := vs[..10], vs[10..];
    var tail: seq<Token> := if |rest| % 10 != 0 then [Newline] else [];
    assert vs == first + rest;
    GridBodySplit(first, rest, 0);
    GridBodyFullRow(first, 0);
    GridBodyShift(rest, 0);
    ModTenShift(|rest|);
    assert Grid(vs) == GridBody(vs, 0) + tail;
    assert GridBody(vs, 0) == Row(first) + GridBody(rest, 0);
  }

  lemma {:induction false} NewlineCountAppend(a: seq<Token>, b: seq<Token>)
    ensures NewlineCount(a + b) == NewlineCount(a) + NewlineCount(b)
    decreases |b|
  {
    if b == [] {
      assert a + b == a;
    } else {
      var b' := b[..|b| - 1];
      assert (a + b)[..|a + b| - 1] == a + b';
      NewlineCountAppend(a, b');
    }
  }

  lemma {:induction false} NumbersHaveNoNewline(vs: seq<Verse>)
    ensures NewlineCount(Numbers(vs)) == 0
    decreases |vs|
  {
    if vs != [] {
      NumbersHaveNoNewline(vs[..|vs| - 1]);
      NewlineCountAppend(Numbers(vs[..|vs| - 1]), [Number(vs[|vs| - 1].number)]);
    }
  }

  lemma {:induction false} RowHasOneNewline(vs: seq<Verse>)
    ensures NewlineCount(Row(vs)) == 1
  {
    NumbersHaveNoNewline(vs);
    NewlineCountAppend(Numbers(vs), [Newline]);
  }

  /** The grid has ceil(count / 10) rows: one newline per row. */
  lemma {:induction false} GridRowCount(vs: seq<Verse>)
    ensures NewlineCount(Grid(vs)) == (|vs| + 9) / 10
  {
    GridIsRows(vs);
    RowsRowCount(vs);
  }

  lemma {:induction false} RowsRowCount(vs: seq<Verse>)
    ensures NewlineCount(Rows(vs)) == (|vs| + 9) / 10
    decreases |vs|
  {
    if vs == [] {
    } else if |vs| <= 10 {
      RowHasOneNewline(vs);
    } else {
      RowHasOneNewline(vs[..10]);
      RowsRowCount(vs[10..]);
      NewlineCountAppend(Row(vs[..10]), Rows(vs[10..]));
    }
  }

  /** For instance 23 verses: two rows of ten and a row of three, so three rows. */
  lemma TwentyThreeVersesMakeThreeRows(vs: seq<Verse>)
    requires |vs| == 23
    ensures Grid(vs) == Row(vs[..10]) + Row(vs[10..20]) + Row(vs[20..])
    ensures NewlineCount(Grid(vs)) == 3
  {
    GridIsRows(vs);
    GridRowCount(vs);
    var rest := vs[10..];
    assert rest[..10] == vs[10..20];
    assert rest[10..] == vs[20..];
    assert Rows(rest) == Row(vs[10..20]) + Rows(vs[20..]);
    assert Rows(vs[20..]) == Row(vs[20..]);
  }

  /**
   * For instance a query for Rev 7:1-3 that resolves to three locations prints,
   * between the padding newlines, three lines with verse numbers 1, 2 and 3.
   */
  lemma ThreeVerseRangeExample(m: Module)
    ensures var locs := [Location(66, 7, 1), Location(66, 7, 2), Location(66, 7, 3)];
      Printed(Some(Resolution(m, locs)), false) ==
        [Newline, Line(1, m.text(locs[0])), Line(2, m.text(locs[1])), Line(3, m.text(locs[2])), Newline]
  {
    var locs := [Location(66, 7, 1), Location(66, 7, 2), Location(66, 7, 3)];
    var vs := Delivered(m, locs);
    assert vs == [Verse(1, m.text(locs[0])), Verse(2, m.text(locs[1])), Verse(3, m.text(locs[2]))];
    assert vs[..|vs| - 1] == vs[..2];
    assert vs[..2][..1] == vs[..1];
    assert vs[..1][..0] == [];
    assert TextLines(vs[..1]) == [Line(1, m.text(locs[0]))];
    assert TextLines(vs[..2]) == [Line(1, m.text(locs[0])), Line(2, m.text(locs[1]))];
    assert TextLines(vs) == [Line(1, m.text(locs[0])), Line(2, m.text(locs[1])), Line(3, m.text(locs[2]))];
  }
}
