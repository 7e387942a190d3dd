/** Importing purchases from CSV: rows are checked in file order up to the first bad one, and
    repeated purchases are rejected, merged or kept. */
module CsvImport {
  import opened Grouping
  import opened Wrappers

  const MAX_ROWS := 1000
  const FIRST_LINE := 2

  /** What makes two purchases the same; the price in cents, the date in seconds. */
  datatype Key = Key(setNumber: string, price: int, currency: string, condition: string,
                     purchaseDate: Option<int>, notes: Option<string>)

  datatype Item = Item(key: Key, quantity: int)

  datatype Portfolio = Portfolio(name: string, description: Option<string>, currency: string)

  /** A CSV row as the field validation sees it. */
  datatype Row = WrongFieldCount | Blank | Malformed | Fields(portfolio: Portfolio, item: Item)

  datatype File = Unreadable | WrongHeader | Table(rows: seq<Row>)

  datatype Mode = Reject | Merge | KeepSeparate

  datatype Fault = FieldCount | BlankRow | BadFormat | OtherPortfolio | UnknownSet | DuplicateRow

  datatype Error = CannotRead | BadHeader | NoRows | TooManyRows | BadRow(line: int, fault: Fault)

  /** A purchase with the line it was first seen on. */
  datatype Line = Line(number: int, item: Item)

  /** A line that was folded into an earlier row; the row is shared, not copied. */
  datatype Repeat = Repeat(number: int, original: nat)

  datatype Result =
    | Imported(portfolio: Portfolio, rows: seq<Line>, merged: seq<Repeat>)
    | Refused(error: Error)

  function ByKey(): Line -> Key { (l: Line) => l.item.key }
  function Quantity(): Line -> int { (l: Line) => l.item.quantity }

  // ---------------------------------------------------------------- which file is accepted

  predicate RepeatsEarlier(rows: seq<Row>, i: nat)
    requires i < |rows| && rows[i].Fields?
  {
    exists j :: 0 <= j < i && rows[j].Fields? && rows[j].item.key == rows[i].item.key
  }

  /** What is wrong with row i when the rows before it are in order. */
  function FaultOf(rows: seq<Row>, i: nat, mode: Mode, catalog: set<string>): Option<Fault>
    requires i < |rows|
  {
    match rows[i]
    case WrongFieldCount => Some(FieldCount)
    case Blank => Some(BlankRow)
    case Malformed => Some(BadFormat)
    case Fields(portfolio, item) =>
      if rows[0].Fields? && rows[0].portfolio != portfolio then Some(OtherPortfolio)
      else if item.key.setNumber !in catalog then Some(UnknownSet)
      else if mode == Reject && RepeatsEarlier(rows, i) then Some(DuplicateRow)
      else None
  }

  ghost predicate CleanUpTo(rows: seq<Row>, n: nat, mode: Mode, catalog: set<string>)
    requires n <= |rows|
  {
    forall i :: 0 <= i < n ==> FaultOf(rows, i, mode, catalog) == None
  }

  /** The fault of a row after rows that are in order: one with fields is good if and only if its
      portfolio is that of every earlier row, its set is known, and, if repeats are rejected, no earlier
      row is the same purchase; of several faults the first in that order is reported. */
  lemma FaultIsExact(rows: seq<Row>, i: nat, mode: Mode, catalog: set<string>)
    requires i < |rows| && CleanUpTo(rows, i, mode, catalog)
    ensures var fault := FaultOf(rows, i, mode, catalog);
            match rows[i]
            case WrongFieldCount => fault == Some(FieldCount)
            case Blank => fault == Some(BlankRow)
            case Malformed => fault == Some(BadFormat)
            case Fields(portfolio, item) =>
              var foreign := exists j :: 0 <= j < i && rows[j].Fields? && rows[j].portfolio != portfolio;
              var repeated := exists j :: 0 <= j < i && rows[j].Fields? && rows[j].item.key == item.key;
              && (fault == Some(OtherPortfolio) <==> foreign)
              && (fault == Some(UnknownSet) <==> !foreign && item.key.setNumber !in catalog)
              && (fault == Some(DuplicateRow) <==> !foreign && item.key.setNumber in catalog && mode == Reject && repeated)
              && (fault == None <==> !foreign && item.key.setNumber in catalog && !(mode == Reject && repeated))
  {
    if i > 0 {
      assert FaultOf(rows, 0, mode, catalog) == None && rows[0].Fields?;
      forall j | 0 <= j < i ensures rows[j].Fields? && rows[j].portfolio == rows[0].portfolio {
        assert FaultOf(rows, j, mode, catalog) == None;
      }
    }
  }

  // ---------------------------------------------------------------- what an accepted file becomes

  predicate AllFields(rows: seq<Row>) {
    forall r :: r in rows ==> r.Fields?
  }

  /** The purchases with their line numbers; the header is line 1. */
  function Numbered(rows: seq<Row>): seq<Line> {
    if rows == [] then [] else
      var before, r := Numbered(rows[..|rows| - 1]), rows[|rows| - 1];
      if r.Fields? then before + [Line(|rows| - 1 + FIRST_LINE, r.item)] else before
  }

  /** One row for a key: the line of its first purchase, and the quantities of all added up. */
  function MergedLine(lines: seq<Line>, k: Key): Line {
    var g := Group(lines, ByKey(), k);
    Line(if g == [] then 0 else g[0].number, Item(k, Total(g, Quantity())))
  }

  function MergedLines(lines: seq<Line>, keys: seq<Key>): seq<Line> {
    seq(|keys|, i requires 0 <= i < |keys| => MergedLine(lines, keys[i]))
  }

  function IndexOf(keys: seq<Key>, k: Key): (i: nat)
    requires k in keys
    ensures i < |keys| && keys[i] == k
  {
    if keys[|keys| - 1] == k then |keys| - 1 else IndexOf(keys[..|keys| - 1], k)
  }

  /** The lines whose key occurred before, each with the row it is folded into. */
  function Repeats(lines: seq<Line>): seq<Repeat> {
    if lines == [] then [] else
      var before, l := lines[..|lines| - 1], lines[|lines| - 1];
      var keys := Keys(before, ByKey());
      if l.item.key in keys then Repeats(before) + [Repeat(l.number, IndexOf(keys, l.item.key))] else Repeats(before)
  }

  function RowsOf(lines: seq<Line>, mode: Mode): seq<Line> {
    if mode == Merge then MergedLines(lines, Keys(lines, ByKey())) else lines
  }

  function MergedOf(lines: seq<Line>, mode: Mode): seq<Repeat> {
    if mode == Merge then Repeats(lines) else []
  }

  function Accepted(rows: seq<Row>, mode: Mode): Result
    requires rows != [] && rows[0].Fields?
  {
    Imported(rows[0].portfolio, RowsOf(Numbered(rows), mode), MergedOf(Numbered(rows), mode))
  }

  lemma NumberedSnoc(rows: seq<Row>, i: nat)
    requires i < |rows| && rows[i].Fields?
    ensures Numbered(rows[..i + 1]) == Numbered(rows[..i]) + [Line(i + FIRST_LINE, rows[i].item)]
  {
    assert rows[..i + 1][..i] == rows[..i];
  }

  lemma {:induction false} NumberedKeys(rows: seq<Row>, i: nat, k: Key)
    requires i <= |rows|
    ensures (exists l :: l in Numbered(rows[..i]) && ByKey()(l) == k)
       <==> exists j :: 0 <= j < i && rows[j].Fields? && rows[j].item.key == k
  {
    if i > 0 {
      assert rows[..i][..i - 1] == rows[..i - 1];
      NumberedKeys(rows, i - 1, k);
      var before, r := Numbered(rows[..i - 1]), rows[i - 1];
      if r.Fields? {
        var x := Line(i - 1 + FIRST_LINE, r.item);
        assert Numbered(rows[..i]) == before + [x];
        assert x in Numbered(rows[..i]);
        assert forall l :: l in before ==> l in Numbered(rows[..i]);
        assert forall l :: l in Numbered(rows[..i]) ==> l in before || l == x;
      }
    }
  }

  lemma SeenKeys(rows: seq<Row>, i: nat)
    requires i < |rows| && rows[i].Fields?
    ensures rows[i].item.key in Keys(Numbered(rows[..i]), ByKey()) <==> RepeatsEarlier(rows, i)
  {
    KeysAreThoseOfRows(Numbered(rows[..i]), ByKey(), rows[i].item.key);
    NumberedKeys(rows, i, rows[i].item.key);
  }

  /** Adding a line's quantity to an earlier row. */
  function Fold(rows: seq<Line>, i: nat, x: Line): seq<Line>
    requires i < |rows|
  {
    rows[i := Line(rows[i].number, Item(rows[i].item.key, rows[i].item.quantity + x.item.quantity))]
  }

  /** Folding one more line into the rows merged so far. */
  lemma MergeRepeat(lines: seq<Line>, x: Line, i: nat)
    requires i < |Keys(lines, ByKey())| && Keys(lines, ByKey())[i] == x.item.key
    ensures RowsOf(lines + [x], Merge) == Fold(RowsOf(lines, Merge), i, x)
  {
    var keys := Keys(lines, ByKey());
    Snoc(lines, x, ByKey(), x.item.key, Quantity());
    KeysAreDistinct(lines, ByKey());
    var after, folded := RowsOf(lines + [x], Merge), Fold(RowsOf(lines, Merge), i, x);
    forall j | 0 <= j < |keys| ensures after[j] == folded[j] {
      MergedLineSnoc(lines, x, keys[j]);
    }
  }

  lemma RepeatsSnoc(lines: seq<Line>, x: Line)
    ensures x.item.key in Keys(lines, ByKey()) ==>
      Repeats(lines + [x]) == Repeats(lines) + [Repeat(x.number, IndexOf(Keys(lines, ByKey()), x.item.key))]
    ensures x.item.key !in Keys(lines, ByKey()) ==> Repeats(lines + [x]) == Repeats(lines)
  {
    assert (lines + [x])[..|lines|] == lines;
  }

  lemma MergeNew(lines: seq<Line>, x: Line)
    requires x.item.key !in Keys(lines, ByKey())
    ensures RowsOf(lines + [x], Merge) == RowsOf(lines, Merge) + [x]
  {
    var keys, k := Keys(lines, ByKey()), x.item.key;
    Snoc(lines, x, ByKey(), k, Quantity());
    MergedLineSnoc(lines, x, k);
    forall i | 0 <= i < |keys| ensures MergedLine(lines + [x], keys[i]) == MergedLine(lines, keys[i]) {
      assert keys[i] in keys;
      MergedLineSnoc(lines, x, keys[i]);
    }
  }

  lemma MergedLineSnoc(lines: seq<Line>, x: Line, k: Key)
    ensures k != x.item.key ==> MergedLine(lines + [x], k) == MergedLine(lines, k)
    ensures k == x.item.key && k !in Keys(lines, ByKey()) ==> MergedLine(lines + [x], k) == x
    ensures k == x.item.key && k in Keys(lines, ByKey()) ==>
      var before := MergedLine(lines, k);
      MergedLine(lines + [x], k) == Line(before.number, Item(k, before.item.quantity + x.item.quantity))
  {
    var g := Group(lines, ByKey(), k);
    KeysAreThoseOfRows(lines, ByKey(), k);
    Snoc(lines, x, ByKey(), k, Quantity());
    Snoc(g, x, ByKey(), k, Quantity());
  }

  /** The dictionary knows every key so far; when rows are merged, also the row of each. */
  ghost predicate Indexed(indexes: map<Key, nat>, keys: seq<Key>, mode: Mode) {
    && (forall k :: k in indexes <==> k in keys)
    && (mode == Merge ==> forall k :: k in indexes ==> indexes[k] == IndexOf(keys, k))
  }

  lemma IndexOfSnoc(keys: seq<Key>, k: Key, j: Key)
    requires k !in keys
    ensures IndexOf(keys + [k], k) == |keys|
    ensures j in keys ==> IndexOf(keys + [k], j) == IndexOf(keys, j)
  {
    assert (keys + [k])[..|keys|] == keys;
  }

  lemma KeysSnoc(lines: seq<Line>, x: Line, indexes: map<Key, nat>, mode: Mode)
    requires Indexed(indexes, Keys(lines, ByKey()), mode)
    ensures Indexed(if x.item.key in indexes then indexes else indexes[x.item.key := |RowsOf(lines, mode)|],
                    Keys(lines + [x], ByKey()), mode)
  {
    var keys, k := Keys(lines, ByKey()), x.item.key;
    Snoc(lines, x, ByKey(), k, Quantity());
    if k !in keys {
      assert |MergedLines(lines, keys)| == |keys|;
      forall j | j in keys || j == k ensures j in keys ==> IndexOf(keys + [k], j) == IndexOf(keys, j) {
        IndexOfSnoc(keys, k, j);
      }
      IndexOfSnoc(keys, k, k);
    }
  }

  /** The end of the loop: a purchase is folded into an earlier row, or becomes a row. */
  method AddPurchase(x: Line, mode: Mode, indexes: map<Key, nat>, rows: seq<Line>, repeats: seq<Repeat>, ghost lines: seq<Line>)
    returns (duplicateIndexes: map<Key, nat>, parsed: seq<Line>, merged: seq<Repeat>)
    requires Indexed(indexes, Keys(lines, ByKey()), mode)
    requires rows == RowsOf(lines, mode) && repeats == MergedOf(lines, mode)
    ensures Indexed(duplicateIndexes, Keys(lines + [x], ByKey()), mode)
    ensures parsed == RowsOf(lines + [x], mode) && merged == MergedOf(lines + [x], mode)
  {
    duplicateIndexes, parsed, merged := indexes, rows, repeats;
    KeysSnoc(lines, x, indexes, mode);
    RepeatsSnoc(lines, x);
    if x.item.key in indexes && mode == Merge {
      var original := indexes[x.item.key];
      MergeRepeat(lines, x, original);
      parsed := Fold(parsed, original, x);
      merged := merged + [Repeat(x.number, original)];
      return;
    }
    if x.item.key !in indexes {
      MergeNew(lines, x);
      duplicateIndexes := duplicateIndexes[x.item.key := |parsed|];
    }
    parsed := parsed + [x];
  }

  /** The variables of the row loop. */
  datatype Progress = Progress(portfolio: Option<Portfolio>, duplicateIndexes: map<Key, nat>, parsed: seq<Line>, merged: seq<Repeat>)

  /** They stand for the first i rows, none of which has a fault. */
  ghost predicate Stands(v: Progress, rows: seq<Row>, i: nat, mode: Mode, catalog: set<string>) {
    && i <= |rows|
    && CleanUpTo(rows, i, mode, catalog)
    && (i > 0 ==> rows[0].Fields?)
    && v.portfolio == (if i > 0 then Some(rows[0].portfolio) else None)
    && Indexed(v.duplicateIndexes, Keys(Numbered(rows[..i]), ByKey()), mode)
    && v.parsed == RowsOf(Numbered(rows[..i]), mode)
    && v.merged == MergedOf(Numbered(rows[..i]), mode)
  }

  /** The checks of one row, against the portfolio of the first row and the keys seen so far. */
  method CheckRow(v: Progress, rows: seq<Row>, i: nat, mode: Mode, catalog: set<string>) returns (fault: Option<Fault>)
    requires i < |rows| && Stands(v, rows, i, mode, catalog)
    ensures fault == FaultOf(rows, i, mode, catalog)
  {
    match rows[i]
    case WrongFieldCount => return Some(FieldCount);
    case Blank => return Some(BlankRow);
    case Malformed => return Some(BadFormat);
    case Fields(current, item) =>
      if v.portfolio.Some? && current != v.portfolio.value {
        return Some(OtherPortfolio);
      }
      if item.key.setNumber !in catalog {
        return Some(UnknownSet);
      }
      SeenKeys(rows, i);
      if item.key in v.duplicateIndexes && mode == Reject {
        return Some(DuplicateRow);
      }
      fault := None;
  }

  /** The rest of the loop's body, for a row without a fault. */
  method AcceptRow(v: Progress, rows: seq<Row>, i: nat, mode: Mode, catalog: set<string>) returns (next: Progress)
    requires i < |rows| && Stands(v, rows, i, mode, catalog) && FaultOf(rows, i, mode, catalog) == None
    ensures Stands(next, rows, i + 1, mode, catalog)
  {
    NumberedSnoc(rows, i);
    var indexes, parsed, merged :=
      AddPurchase(Line(i + FIRST_LINE, rows[i].item), mode, v.duplicateIndexes, v.parsed, v.merged, Numbered(rows[..i]));
    next := Progress(if v.portfolio.None? then Some(rows[i].portfolio) else v.portfolio, indexes, parsed, merged);
  }

  lemma StandsAtEnd(v: Progress, rows: seq<Row>, mode: Mode, catalog: set<string>)
    requires rows != [] && Stands(v, rows, |rows|, mode, catalog)
    ensures CleanUpTo(rows, |rows|, mode, catalog) && rows[0].Fields?
    ensures v.portfolio.Some? && Imported(v.portfolio.value, v.parsed, v.merged) == Accepted(rows, mode)
  {
    assert rows[..|rows|] == rows;
  }

  lemma FaultAt(v: Progress, rows: seq<Row>, i: nat, mode: Mode, catalog: set<string>)
    requires i < |rows| && Stands(v, rows, i, mode, catalog) && FaultOf(rows, i, mode, catalog).Some?
    ensures CleanUpTo(rows, i, mode, catalog) && !CleanUpTo(rows, |rows|, mode, catalog)
  {
  }

  /** The row loop: the first bad row is reported; without one, the rows are imported. */
  method ParseRows(rows: seq<Row>, mode: Mode, catalog: set<string>) returns (r: Result)
    requires rows != []
    ensures CleanUpTo(rows, |rows|, mode, catalog) ==> rows[0].Fields? && r == Accepted(rows, mode)
    ensures !CleanUpTo(rows, |rows|, mode, catalog) ==>
      && r.Refused? && r.error.BadRow?
      && 0 <= r.error.line - FIRST_LINE < |rows|
      && CleanUpTo(rows, r.error.line - FIRST_LINE, mode, catalog)
      && FaultOf(rows, r.error.line - FIRST_LINE, mode, catalog) == Some(r.error.fault)
  {
    var v := Progress(None, map[], [], []);
    for i := 0 to |rows|
      invariant Stands(v, rows, i, mode, catalog)
    {
      var fault := CheckRow(v, rows, i, mode, catalog);
      if fault.Some? {
        FaultAt(v, rows, i, mode, catalog);
        return Refused(BadRow(i + FIRST_LINE, fault.value));
      }
      v := AcceptRow(v, rows, i, mode, catalog);
    }
    StandsAtEnd(v, rows, mode, catalog);
    r := Imported(v.portfolio.value, v.parsed, v.merged);
  }

  /** `_parse_portfolio_csv`. */
  method Parse(file: File, mode: Mode, catalog: set<string>) returns (r: Result)
    ensures file.Unreadable? ==> r == Refused(CannotRead)
    ensures file.WrongHeader? ==> r == Refused(BadHeader)
    ensures file.Table? && file.rows == [] ==> r == Refused(NoRows)
    ensures file.Table? && |file.rows| > MAX_ROWS ==> r == Refused(TooManyRows)
    ensures file.Table? && 0 < |file.rows| <= MAX_ROWS ==>
      if CleanUpTo(file.rows, |file.rows|, mode, catalog) then
        file.rows[0].Fields? && r == Accepted(file.rows, mode)
      else
        && r.Refused? && r.error.BadRow?
        && 0 <= r.error.line - FIRST_LINE < |file.rows|
        && CleanUpTo(file.rows, r.error.line - FIRST_LINE, mode, catalog)
        && FaultOf(file.rows, r.error.line - FIRST_LINE, mode, catalog) == Some(r.error.fault)
  {
    if file.Unreadable? {
      return Refused(CannotRead);
    }
    if file.WrongHeader? {
      return Refused(BadHeader);
    }
    if file.rows == [] {
      return Refused(NoRows);
    }
    if |file.rows| > MAX_ROWS {
      return Refused(TooManyRows);
    }
    r := ParseRows(file.rows, mode, catalog);
  }

  // ---------------------------------------------------------------- what each mode promises

  lemma CleanRowsHaveFields(rows: seq<Row>, mode: Mode, catalog: set<string>)
    requires CleanUpTo(rows, |rows|, mode, catalog)
    ensures AllFields(rows) && (rows != [] ==> rows[0].Fields?)
  {
    forall r | r in rows ensures r.Fields? {
      var i :| 0 <= i < |rows| && rows[i] == r;
      assert FaultOf(rows, i, mode, catalog) == None;
    }
    assert rows != [] ==> rows[0] in rows;
  }

  function FoldedQuantity(rows: seq<Line>): int { Total(rows, Quantity()) }

  lemma {:induction false} MergedTotal(lines: seq<Line>, keys: seq<Key>)
    ensures FoldedQuantity(MergedLines(lines, keys)) == TotalOfGroups(keys, lines, ByKey(), Quantity())
  {
    if keys != [] {
      MergedTotal(lines, keys[..|keys| - 1]);
      assert MergedLines(lines, keys)[..|keys| - 1] == MergedLines(lines, keys[..|keys| - 1]);
    }
  }

  lemma {:induction false} RepeatCount(lines: seq<Line>)
    ensures |Keys(lines, ByKey())| + |Repeats(lines)| == |lines|
  {
    if lines != [] {
      RepeatCount(lines[..|lines| - 1]);
    }
  }

  /** Lines are numbered in file order. */
  ghost predicate Ascending(lines: seq<Line>) {
    forall i, j :: 0 <= i < j < |lines| ==> lines[i].number < lines[j].number
  }

  ghost predicate Below(lines: seq<Line>, n: int) {
    forall l :: l in lines ==> l.number < n
  }

  lemma AscendingSnoc(lines: seq<Line>, x: Line)
    requires Ascending(lines) && Below(lines, x.number)
    ensures Ascending(lines + [x]) && Below(lines + [x], x.number + 1)
  {
  }

  lemma {:induction false} FirstOccurrences(lines: seq<Line>, n: int)
    requires Ascending(lines) && Below(lines, n)
    ensures Ascending(RowsOf(lines, Merge)) && Below(RowsOf(lines, Merge), n)
  {
    if lines != [] {
      var init, x := lines[..|lines| - 1], lines[|lines| - 1];
      assert lines == init + [x] && x in lines;
      forall l | l in init ensures l.number < x.number {
        var i :| 0 <= i < |init| && init[i] == l;
        assert lines[i] == l;
      }
      FirstOccurrences(init, x.number);
      if x.item.key in Keys(init, ByKey()) {
        MergeRepeat(init, x, IndexOf(Keys(init, ByKey()), x.item.key));
        FoldKeepsNumbers(RowsOf(init, Merge), IndexOf(Keys(init, ByKey()), x.item.key), x);
      } else {
        MergeNew(init, x);
        AscendingSnoc(RowsOf(init, Merge), x);
      }
    }
  }

  lemma FoldKeepsNumbers(rows: seq<Line>, i: nat, x: Line)
    requires i < |rows| && Ascending(rows) && Below(rows, x.number)
    ensures Ascending(Fold(rows, i, x)) && Below(Fold(rows, i, x), x.number)
  {
    var r := Fold(rows, i, x);
    assert forall j :: 0 <= j < |r| ==> r[j].number == rows[j].number;
    forall l | l in r ensures l.number < x.number {
      var j :| 0 <= j < |r| && r[j] == l;
      assert rows[j] in rows;
    }
  }

  lemma {:induction false} NumberedAscend(rows: seq<Row>)
    ensures Ascending(Numbered(rows)) && Below(Numbered(rows), |rows| + FIRST_LINE)
    ensures AllFields(rows) ==> |Numbered(rows)| == |rows|
  {
    if rows != [] {
      var init := rows[..|rows| - 1];
      NumberedAscend(init);
      assert AllFields(rows) ==> AllFields(init) && rows[|rows| - 1] in rows;
      if rows[|rows| - 1].Fields? {
        AscendingSnoc(Numbered(init), Line(|rows| - 1 + FIRST_LINE, rows[|rows| - 1].item));
      }
    }
  }

  ghost predicate Mentions(lines: seq<Line>, k: Key) {
    exists l :: l in lines && l.item.key == k
  }

  lemma MergeKeepsKeys(lines: seq<Line>, k: Key)
    ensures Mentions(RowsOf(lines, Merge), k) <==> Mentions(lines, k)
  {
    var keys, merged := Keys(lines, ByKey()), RowsOf(lines, Merge);
    KeysAreThoseOfRows(lines, ByKey(), k);
    assert forall l :: ByKey()(l) == l.item.key;
    if k in keys {
      assert merged[IndexOf(keys, k)] in merged;
    }
  }

  /** Merging leaves one row for every key, in first-occurrence order; no quantity and no line is
      lost: the rows' quantities add up to those of the file, and rows and folded lines are all its lines. */
  lemma MergeConserves(rows: seq<Row>, catalog: set<string>)
    requires rows != [] && CleanUpTo(rows, |rows|, Merge, catalog)
    ensures rows[0].Fields?
    ensures
      var lines, r := Numbered(rows), Accepted(rows, Merge);
      && (forall i, j :: 0 <= i < j < |r.rows| ==> r.rows[i].item.key != r.rows[j].item.key)
      && Ascending(r.rows)
      && (forall k :: Mentions(r.rows, k) <==> Mentions(lines, k))
      && FoldedQuantity(r.rows) == FoldedQuantity(lines)
      && |r.rows| + |r.merged| == |rows|
  {
    var lines := Numbered(rows);
    CleanRowsHaveFields(rows, Merge, catalog);
    KeysAreDistinct(lines, ByKey());
    NumberedAscend(rows);
    FirstOccurrences(lines, |rows| + FIRST_LINE);
    MergedTotal(lines, Keys(lines, ByKey()));
    GroupsPartition(lines, ByKey(), Quantity());
    RepeatCount(lines);
    forall k ensures Mentions(RowsOf(lines, Merge), k) <==> Mentions(lines, k) {
      MergeKeepsKeys(lines, k);
    }
  }

  lemma RowIsMerged(lines: seq<Line>, keys: seq<Key>, l: Line)
    requires l in MergedLines(lines, keys)
    ensures l == MergedLine(lines, l.item.key)
  {
    var i :| 0 <= i < |keys| && MergedLines(lines, keys)[i] == l;
  }

  /** Each row of a key carries the quantities of exactly its own lines. */
  lemma MergedRowIsGroup(rows: seq<Row>, catalog: set<string>, l: Line, m: Line)
    requires rows != [] && CleanUpTo(rows, |rows|, Merge, catalog)
    ensures rows[0].Fields?
    ensures l in Accepted(rows, Merge).rows ==> l == MergedLine(Numbered(rows), l.item.key)
    ensures m in Group(Numbered(rows), ByKey(), l.item.key) <==> m in Numbered(rows) && m.item.key == l.item.key
  {
    var lines := Numbered(rows);
    CleanRowsHaveFields(rows, Merge, catalog);
    GroupMembers(lines, ByKey(), l.item.key, m);
    if l in MergedLines(lines, Keys(lines, ByKey())) {
      RowIsMerged(lines, Keys(lines, ByKey()), l);
    }
  }

  /** No purchase repeats an earlier one. */
  ghost predicate AllDifferent(rows: seq<Row>) {
    forall i :: 0 <= i < |rows| && rows[i].Fields? ==> !RepeatsEarlier(rows, i)
  }

  /** Rejecting accepts exactly the files that the other modes accept and whose keys are all different. */
  lemma RejectIsExact(rows: seq<Row>, mode: Mode, catalog: set<string>)
    requires mode != Reject
    ensures CleanUpTo(rows, |rows|, Reject, catalog) <==> CleanUpTo(rows, |rows|, mode, catalog) && AllDifferent(rows)
  {
    forall i | 0 <= i < |rows|
      ensures FaultOf(rows, i, Reject, catalog) == None <==>
        FaultOf(rows, i, mode, catalog) == None && (rows[i].Fields? ==> !RepeatsEarlier(rows, i))
    {
    }
    if CleanUpTo(rows, |rows|, Reject, catalog) {
      forall i | 0 <= i < |rows| && rows[i].Fields? ensures !RepeatsEarlier(rows, i) {
        assert FaultOf(rows, i, Reject, catalog) == None;
      }
    }
  }

  /** A file that is accepted when repeats are rejected is accepted in every mode, with the same result. */
  lemma ModesAgree(rows: seq<Row>, mode: Mode, catalog: set<string>)
    requires rows != [] && CleanUpTo(rows, |rows|, Reject, catalog)
    ensures CleanUpTo(rows, |rows|, mode, catalog) && rows[0].Fields?
    ensures Accepted(rows, mode) == Imported(rows[0].portfolio, Numbered(rows), [])
  {
    CleanRowsHaveFields(rows, Reject, catalog);
    RejectIsExact(rows, if mode == Reject then Merge else mode, catalog);
    if mode == Merge {
      NoRepeats(rows, |rows|);
      assert rows[..|rows|] == rows;
    }
  }

  lemma {:induction false} NoRepeats(rows: seq<Row>, n: nat)
    requires AllFields(rows) && AllDifferent(rows) && n <= |rows|
    ensures RowsOf(Numbered(rows[..n]), Merge) == Numbered(rows[..n])
    ensures Repeats(Numbered(rows[..n])) == []
  {
    if n > 0 {
      NoRepeats(rows, n - 1);
      assert rows[n - 1] in rows;
      SeenKeys(rows, n - 1);
      NumberedSnoc(rows, n - 1);
      assert !RepeatsEarlier(rows, n - 1);
      RepeatsSnoc(Numbered(rows[..n - 1]), Line(n - 1 + FIRST_LINE, rows[n - 1].item));
      MergeNew(Numbered(rows[..n - 1]), Line(n - 1 + FIRST_LINE, rows[n - 1].item));
    }
  }
}
