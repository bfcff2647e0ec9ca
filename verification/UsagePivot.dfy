/** The usage pivot of the console: rows are grouped by two keys and their metrics added up cell by cell. */
module UsagePivot {
  import opened Options

  datatype Metrics = Metrics(requests: int, input: int, cached: int, output: int, cost: int, bytes: int)

  const ZERO := Metrics(0, 0, 0, 0, 0, 0)

  datatype Dimension = User | Consumer | Model | Date

  datatype UsageRow = UsageRow(
    userId: string, userEmail: Option<string>, userName: Option<string>,
    consumerName: string, consumerPrefix: string, model: string, date: string,
    metrics: Metrics)

  function Add(a: Metrics, b: Metrics): Metrics {
    Metrics(a.requests + b.requests, a.input + b.input, a.cached + b.cached, a.output + b.output, a.cost + b.cost,
        a.bytes + b.bytes)
  }

  // ----- Keys

  /** JavaScript's `a || b` on optional strings. */
  function OrElse(a: Option<string>, b: string): string {
    if a.Some? && a.value != "" then a.value else b
  }

  function Label(row: UsageRow, dimension: Dimension): string {
    match dimension
    case User => OrElse(row.userName, OrElse(row.userEmail, row.userId))
    case Consumer => row.consumerName + " \U{B7} " + row.consumerPrefix + "\U{2026}"
    case Model => row.model
    case Date => row.date
  }

  function Labels(row: UsageRow, dimensions: seq<Dimension>): (labels: seq<string>)
    ensures |labels| == |dimensions|
  {
    seq(|dimensions|, i requires 0 <= i < |dimensions| => Label(row, dimensions[i]))
  }

  const SEPARATOR: char := '\U{1F}'

  function Joined(labels: seq<string>): string {
    if labels == [] then ""
    else if |labels| == 1 then labels[0]
    else Joined(labels[..|labels| - 1]) + [SEPARATOR] + labels[|labels| - 1]
  }

  function KeyOf(labels: seq<string>): string {
    OrElse(Some(Joined(labels)), "total")
  }

  /** `usagePivotKey`. */
  function PivotKey(row: UsageRow, dimensions: seq<Dimension>): string {
    KeyOf(Labels(row, dimensions))
  }

  /** A user is shown by the first of name, email and id that is there and not empty; the others by what they are. */
  lemma LabelsShowTheRow(row: UsageRow)
    ensures row.userName.Some? && row.userName.value != "" ==> Label(row, User) == row.userName.value
    ensures row.userName in {None, Some("")} && row.userEmail.Some? && row.userEmail.value != "" ==>
              Label(row, User) == row.userEmail.value
    ensures row.userName in {None, Some("")} && row.userEmail in {None, Some("")} ==> Label(row, User) == row.userId
    ensures Label(row, Consumer) == row.consumerName + " \U{B7} " + row.consumerPrefix + "\U{2026}"
    ensures Label(row, Model) == row.model && Label(row, Date) == row.date
  {
  }

  // ----- Which rows share a key

  predicate Clean(labels: seq<string>) {
    forall i :: 0 <= i < |labels| ==> SEPARATOR !in labels[i]
  }

  /** No other labels of the same dimensions have the same key. */
  predicate Unambiguous(labels: seq<string>) {
    if |labels| == 1 then labels[0] != "" && labels[0] != "total" else Clean(labels)
  }

  function Separators(s: string): nat {
    if s == [] then 0 else Separators(s[..|s| - 1]) + if s[|s| - 1] == SEPARATOR then 1 else 0
  }

  lemma {:induction false} SeparatorsOfConcat(a: string, b: string)
    ensures Separators(a + b) == Separators(a) + Separators(b)
    decreases |b|
  {
    if b == [] {
      assert a + b == a;
    } else {
      SeparatorsOfConcat(a, b[..|b| - 1]);
      assert (a + b)[..|a + b| - 1] == a + b[..|b| - 1];
    }
  }

  lemma {:induction false} NoSeparators(s: string)
    ensures Separators(s) == 0 <==> SEPARATOR !in s
  {
    if s != [] {
      NoSeparators(s[..|s| - 1]);
      assert s == s[..|s| - 1] + [s[|s| - 1]];
    }
  }

  /** A key of `n` labels has at least `n - 1` separators, and just as many if the labels have none. */
  lemma {:induction false} SeparatorsOfJoined(labels: seq<string>)
    requires labels != []
    ensures Separators(Joined(labels)) >= |labels| - 1
    ensures Separators(Joined(labels)) == |labels| - 1 <==> Clean(labels)
  {
    var n := |labels| - 1;
    var init, last := labels[..n], labels[n];
    assert labels == init + [last];
    NoSeparators(last);
    if n > 0 {
      SeparatorsOfJoined(init);
      SeparatorsOfConcat(Joined(init) + [SEPARATOR], last);
      SeparatorsOfConcat(Joined(init), [SEPARATOR]);
      assert Separators([SEPARATOR]) == 1 by { assert [SEPARATOR][..0] == []; }
    }
  }

  /** The last separator of a string tells what stands before and after it. */
  lemma SplitsAtTheLast(x: string, y: string, a: string, b: string)
    requires SEPARATOR !in y && SEPARATOR !in b && x + [SEPARATOR] + y == a + [SEPARATOR] + b
    ensures x == a && y == b
  {
    var whole, other := x + [SEPARATOR] + y, a + [SEPARATOR] + b;
    assert whole[|x|] == SEPARATOR && other[|a|] == SEPARATOR;
    assert forall k :: |x| < k < |whole| ==> whole[k] == y[k - |x| - 1] != SEPARATOR;
    assert forall k :: |a| < k < |whole| ==> other[k] == b[k - |a| - 1] != SEPARATOR;
    assert x == whole[..|x|] && a == other[..|a|];
    assert y == whole[|x| + 1..] && b == other[|a| + 1..];
  }

  lemma {:induction false} CleanLabelsAreJoinedApart(labels: seq<string>, others: seq<string>)
    requires |labels| == |others| && Clean(labels) && Clean(others) && Joined(labels) == Joined(others)
    ensures labels == others
  {
    if |labels| > 1 {
      var n := |labels| - 1;
      SplitsAtTheLast(Joined(labels[..n]), labels[n], Joined(others[..n]), others[n]);
      CleanLabelsAreJoinedApart(labels[..n], others[..n]);
      assert labels == labels[..n] + [labels[n]] && others == others[..n] + [others[n]];
    } else if |labels| == 1 {
      assert labels == [labels[0]] && others == [others[0]];
    }
  }

  lemma UnambiguousKeys(labels: seq<string>, others: seq<string>)
    requires |labels| == |others| && Unambiguous(labels) && KeyOf(labels) == KeyOf(others)
    ensures labels == others
  {
    if |labels| == 1 {
      assert labels == [labels[0]] && others == [others[0]];
    } else if |labels| > 1 {
      SeparatorsOfJoined(labels);
      SeparatorsOfJoined(others);
      CleanLabelsAreJoinedApart(labels, others);
    }
  }

  lemma {:induction false} JoinedInParts(a: seq<string>, b: seq<string>)
    requires a != [] && b != []
    ensures Joined(a + b) == Joined(a) + [SEPARATOR] + Joined(b)
    decreases |b|
  {
    assert (a + b)[..|a + b| - 1] == a + b[..|b| - 1];
    if |b| > 1 {
      JoinedInParts(a, b[..|b| - 1]);
    } else {
      assert a + b[..0] == a;
    }
  }

  /** Labels that are joined alike can stand for each other. */
  lemma JoinedAlike(a: seq<string>, x: seq<string>, y: seq<string>, c: seq<string>)
    requires x != [] && y != [] && Joined(x) == Joined(y)
    ensures Joined(a + x + c) == Joined(a + y + c)
  {
    if a != [] {
      JoinedInParts(a, x);
      JoinedInParts(a, y);
    } else {
      assert a + x == x && a + y == y;
    }
    if c != [] {
      JoinedInParts(a + x, c);
      JoinedInParts(a + y, c);
    } else {
      assert a + x + c == a + x && a + y + c == a + y;
    }
  }

  lemma SeparatorMayMove(p: string, q: string, y: string)
    ensures Joined([p + [SEPARATOR] + q, y]) == Joined([p, q + [SEPARATOR] + y])
    ensures |p| != |p + [SEPARATOR] + q|
  {
    assert [p + [SEPARATOR] + q, y][..1] == [p + [SEPARATOR] + q] && [p, q + [SEPARATOR] + y][..1] == [p];
    assert p + [SEPARATOR] + q + [SEPARATOR] + y == p + [SEPARATOR] + (q + [SEPARATOR] + y);
  }

  /** Where a label has a separator, one of its neighbours could have it just as well. */
  lemma OtherLabelsJoinAlike(labels: seq<string>, i: nat) returns (others: seq<string>)
    requires |labels| > 1 && i < |labels| && SEPARATOR in labels[i]
    ensures |others| == |labels| && others != labels && Joined(others) == Joined(labels)
  {
    var k :| 0 <= k < |labels[i]| && labels[i][k] == SEPARATOR;
    var p, q := labels[i][..k], labels[i][k + 1..];
    assert labels[i] == p + [SEPARATOR] + q;
    var j := if i + 1 < |labels| then i else i - 1;
    var x, y := labels[j], labels[j + 1];
    var pair := if j == i then [p, q + [SEPARATOR] + y] else [x + [SEPARATOR] + p, q];
    if j == i {
      SeparatorMayMove(p, q, y);
    } else {
      SeparatorMayMove(x, p, q);
    }
    assert Joined(pair) == Joined([x, y]) && pair[0] != x;
    others := labels[..j] + pair + labels[j + 2..];
    assert labels == labels[..j] + [x, y] + labels[j + 2..];
    JoinedAlike(labels[..j], pair, [x, y], labels[j + 2..]);
    assert others[j] == pair[0];
  }

  /**
   A key stands for one list of labels exactly if none of several labels has the separator in it, and a single
   one is neither empty nor `total`.
   */
  lemma KeyTellsLabelsIffUnambiguous(labels: seq<string>)
    ensures Unambiguous(labels) <==>
            forall others :: |others| == |labels| && KeyOf(others) == KeyOf(labels) ==> others == labels
  {
    if Unambiguous(labels) {
      forall others | |others| == |labels| && KeyOf(others) == KeyOf(labels) ensures others == labels {
        UnambiguousKeys(labels, others);
      }
    } else if |labels| == 1 {
      var others := [if labels[0] == "" then "total" else ""];
      assert KeyOf(others) == KeyOf(labels) && others[0] != labels[0];
    } else {
      var i :| 0 <= i < |labels| && SEPARATOR in labels[i];
      var others := OtherLabelsJoinAlike(labels, i);
      assert KeyOf(others) == KeyOf(labels);
    }
  }

  /** Rows of such labels are grouped together exactly if they show the same. */
  lemma RowsShareAKeyIffLabelsAgree(a: UsageRow, b: UsageRow, dimensions: seq<Dimension>)
    requires Unambiguous(Labels(a, dimensions))
    ensures PivotKey(a, dimensions) == PivotKey(b, dimensions)
            <==> forall i :: 0 <= i < |dimensions| ==> Label(a, dimensions[i]) == Label(b, dimensions[i])
  {
    if PivotKey(a, dimensions) == PivotKey(b, dimensions) {
      UnambiguousKeys(Labels(a, dimensions), Labels(b, dimensions));
      forall i | 0 <= i < |dimensions| ensures Label(a, dimensions[i]) == Label(b, dimensions[i]) {
        assert Labels(a, dimensions)[i] == Labels(b, dimensions)[i];
      }
    } else {
      assert Labels(a, dimensions) != Labels(b, dimensions);
    }
  }

  /** Models without a name and models called `total` are added up together. */
  lemma TotalIsSharedWithTheUnnamed(a: UsageRow, b: UsageRow)
    requires a.model == "" && b.model == "total"
    ensures PivotKey(a, [Model]) == PivotKey(b, [Model]) && Label(a, Model) != Label(b, Model)
  {
  }

  // ----- Cells

  /** Adding to a member that an object inherits instead of owning yields `NaN`, and stays `NaN`. */
  datatype Cell = Numbers(metrics: Metrics) | NotANumber

  /** The names a plain object inherits. */
  const INHERITED: set<string> := {
    "constructor", "hasOwnProperty", "isPrototypeOf", "propertyIsEnumerable", "toLocaleString", "toString", "valueOf",
    "__defineGetter__", "__defineSetter__", "__lookupGetter__", "__lookupSetter__", "__proto__"
  }

  type Cells = map<string, Cell>

  /** `cells[columnId] ?? {zeros}`. */
  function Lookup(cells: Cells, column: string): Cell {
    if column in cells then cells[column]
    else if column in INHERITED then NotANumber
    else Numbers(ZERO)
  }

  function Added(cell: Cell, metrics: Metrics): Cell {
    match cell
    case Numbers(sum) => Numbers(Add(sum, metrics))
    case NotANumber => NotANumber
  }

  // ----- The reference: sums over the rows with given keys

  /** What the pivot uses of a row: its two keys and its metrics. */
  datatype Keyed = Keyed(row: string, column: string, metrics: Metrics)

  function KeyedRows(rows: seq<UsageRow>, rd: seq<Dimension>, cd: seq<Dimension>): (keyed: seq<Keyed>)
    ensures |keyed| == |rows|
  {
    seq(|rows|, i requires 0 <= i < |rows| => Keyed(PivotKey(rows[i], rd), PivotKey(rows[i], cd), rows[i].metrics))
  }

  /** The sum over the rows whose keys match; `None` matches every key. */
  function SumWhere(rows: seq<Keyed>, r: Option<string>, c: Option<string>): Metrics {
    if rows == [] then ZERO
    else
      var before, last := SumWhere(rows[..|rows| - 1], r, c), rows[|rows| - 1];
      if Matches(last, r, c) then Add(before, last.metrics) else before
  }

  predicate Matches(row: Keyed, r: Option<string>, c: Option<string>) {
    (r.Some? ==> row.row == r.value) && (c.Some? ==> row.column == c.value)
  }

  datatype Metric = Requests | Input | Cached | Output | Cost | Bytes

  function Value(m: Metrics, metric: Metric): int {
    match metric
    case Requests => m.requests
    case Input => m.input
    case Cached => m.cached
    case Output => m.output
    case Cost => m.cost
    case Bytes => m.bytes
  }

  /** The sum of one metric over the rows whose keys match. */
  function SumOf(rows: seq<Keyed>, r: Option<string>, c: Option<string>, metric: Metric): int {
    if rows == [] then 0
    else
      var n := |rows| - 1;
      SumOf(rows[..n], r, c, metric) + if Matches(rows[n], r, c) then Value(rows[n].metrics, metric) else 0
  }

  /** Each metric is added up on its own. */
  lemma {:induction false} MetricsAddUp(rows: seq<Keyed>, r: Option<string>, c: Option<string>, metric: Metric)
    ensures Value(SumWhere(rows, r, c), metric) == SumOf(rows, r, c, metric)
  {
    if rows != [] {
      MetricsAddUp(rows[..|rows| - 1], r, c, metric);
    }
  }

  predicate Occurs(rows: seq<Keyed>, r: string, c: string) {
    exists i :: 0 <= i < |rows| && rows[i].row == r && rows[i].column == c
  }

  // ----- The pivot

  /** Grouped rows, and the order in which row and column keys first appeared. */
  datatype Pivot = Pivot(rows: map<string, Cells>, rowOrder: seq<string>, columnOrder: seq<string>)

  function Appended(ids: seq<string>, id: string): seq<string> {
    if id in ids then ids else ids + [id]
  }

  function AddRow(p: Pivot, row: Keyed): Pivot {
    var cells := if row.row in p.rows then p.rows[row.row] else map[];
    Pivot(p.rows[row.row := cells[row.column := Added(Lookup(cells, row.column), row.metrics)]],
          Appended(p.rowOrder, row.row), Appended(p.columnOrder, row.column))
  }

  function PivotOf(rows: seq<Keyed>): Pivot {
    if rows == [] then Pivot(map[], [], []) else AddRow(PivotOf(rows[..|rows| - 1]), rows[|rows| - 1])
  }

  /** `pivotUsageRows`: one pass, adding each row into the cell of its keys. */
  method PivotUsageRows(rows: seq<UsageRow>, rd: seq<Dimension>, cd: seq<Dimension>) returns (p: Pivot)
    ensures p == PivotOf(KeyedRows(rows, rd, cd))
  {
    var grouped: map<string, Cells> := map[];
    var rowOrder, columnOrder := [], [];
    ghost var keyed := KeyedRows(rows, rd, cd);
    for i := 0 to |rows|
      invariant Pivot(grouped, rowOrder, columnOrder) == PivotOf(keyed[..i])
    {
      assert keyed[..i + 1][..i] == keyed[..i];
      var rowId, columnId := PivotKey(rows[i], rd), PivotKey(rows[i], cd);
      if columnId !in columnOrder {
        columnOrder := columnOrder + [columnId];
      }
      if rowId !in rowOrder {
        rowOrder := rowOrder + [rowId];
      }
      var cells := if rowId in grouped then grouped[rowId] else map[];
      var cell := Added(Lookup(cells, columnId), rows[i].metrics);
      grouped := grouped[rowId := cells[columnId := cell]];
    }
    assert keyed[..|rows|] == keyed;
    p := Pivot(grouped, rowOrder, columnOrder);
  }

  // ----- Every cell

  predicate HasCell(p: Pivot, r: string, c: string) {
    r in p.rows && c in p.rows[r]
  }

  lemma OccursAppended(rows: seq<Keyed>, r: string, c: string)
    requires rows != []
    ensures Occurs(rows, r, c) <==>
            Occurs(rows[..|rows| - 1], r, c) || (rows[|rows| - 1].row == r && rows[|rows| - 1].column == c)
  {
    var init := rows[..|rows| - 1];
    assert forall i :: 0 <= i < |init| ==> init[i] == rows[i];
  }

  /**
   A cell exists exactly when some row has its keys. It holds the sum over exactly those rows, unless
   its column key is a name every object inherits; then it is `NaN`.
   */
  lemma {:induction false} CellsAreSums(rows: seq<Keyed>, r: string, c: string)
    ensures HasCell(PivotOf(rows), r, c) <==> Occurs(rows, r, c)
    ensures HasCell(PivotOf(rows), r, c) ==>
              PivotOf(rows).rows[r][c] == if c in INHERITED then NotANumber
                  else Numbers(SumWhere(rows, Some(r), Some(c)))
    ensures !Occurs(rows, r, c) ==> SumWhere(rows, Some(r), Some(c)) == ZERO
  {
    if rows != [] {
      CellsAreSums(rows[..|rows| - 1], r, c);
      OccursAppended(rows, r, c);
    }
  }

  /** A concrete miss: usage of a model called `constructor`, with models as columns. */
  lemma ConstructorColumnIsNotANumber(row: UsageRow)
    requires row.model == "constructor"
    ensures var p := PivotOf(KeyedRows([row], [], [Model]));
            HasCell(p, "total", "constructor") && p.rows["total"]["constructor"] == NotANumber
  {
    var keyed := KeyedRows([row], [], [Model]);
    assert PivotKey(row, [Model]) == "constructor" && PivotKey(row, []) == "total";
    assert keyed[0] == Keyed("total", "constructor", row.metrics);
    assert Occurs(keyed, "total", "constructor");
    CellsAreSums(keyed, "total", "constructor");
  }

  // ----- Conservation

  predicate Distinct(ids: seq<string>) {
    forall i, j :: 0 <= i < j < |ids| ==> ids[i] != ids[j]
  }

  lemma {:induction false} OrdersListTheKeys(rows: seq<Keyed>)
    ensures Distinct(PivotOf(rows).rowOrder) && Distinct(PivotOf(rows).columnOrder)
    ensures forall i :: 0 <= i < |rows| ==>
        rows[i].row in PivotOf(rows).rowOrder && rows[i].column in PivotOf(rows).columnOrder
  {
    if rows != [] {
      OrdersListTheKeys(rows[..|rows| - 1]);
      assert forall i :: 0 <= i < |rows| - 1 ==> rows[i] == rows[..|rows| - 1][i];
    }
  }

  predicate AppearsBefore(keys: seq<string>, a: string, b: string) {
    exists k :: 0 <= k < |keys| && keys[k] == a && b !in keys[..k + 1]
  }

  function RowKeys(rows: seq<Keyed>): (keys: seq<string>)
    ensures |keys| == |rows|
  {
    seq(|rows|, i requires 0 <= i < |rows| => rows[i].row)
  }

  function ColumnKeys(rows: seq<Keyed>): (keys: seq<string>)
    ensures |keys| == |rows|
  {
    seq(|rows|, i requires 0 <= i < |rows| => rows[i].column)
  }

  lemma AppearanceStays(keys: seq<string>, key: string, a: string, b: string)
    requires AppearsBefore(keys, a, b)
    ensures AppearsBefore(keys + [key], a, b)
  {
    var k :| 0 <= k < |keys| && keys[k] == a && b !in keys[..k + 1];
    assert (keys + [key])[..k + 1] == keys[..k + 1];
  }

  predicate ByAppearance(keys: seq<string>, order: seq<string>) {
    && (forall i :: 0 <= i < |order| ==> order[i] in keys)
    && forall i, j :: 0 <= i < j < |order| ==> AppearsBefore(keys, order[i], order[j])
  }

  lemma AppendingKeepsAppearance(keys: seq<string>, order: seq<string>, key: string)
    requires ByAppearance(keys, order) && forall k :: k in keys ==> k in order
    ensures ByAppearance(keys + [key], Appended(order, key))
  {
    var after := Appended(order, key);
    forall i, j | 0 <= i < j < |after| ensures AppearsBefore(keys + [key], after[i], after[j]) {
      if j < |order| {
        AppearanceStays(keys, key, order[i], order[j]);
      } else {
        var k :| 0 <= k < |keys| && keys[k] == order[i];
        assert (keys + [key])[..k + 1] == keys[..k + 1];
      }
    }
  }

  lemma {:induction false} RowsAreByAppearance(rows: seq<Keyed>)
    ensures ByAppearance(RowKeys(rows), PivotOf(rows).rowOrder)
    ensures forall k :: k in RowKeys(rows) ==> k in PivotOf(rows).rowOrder
  {
    if rows != [] {
      var init, last := rows[..|rows| - 1], rows[|rows| - 1];
      RowsAreByAppearance(init);
      assert RowKeys(rows) == RowKeys(init) + [last.row];
      AppendingKeepsAppearance(RowKeys(init), PivotOf(init).rowOrder, last.row);
    }
  }

  lemma {:induction false} ColumnsAreByAppearance(rows: seq<Keyed>)
    ensures ByAppearance(ColumnKeys(rows), PivotOf(rows).columnOrder)
    ensures forall k :: k in ColumnKeys(rows) ==> k in PivotOf(rows).columnOrder
  {
    if rows != [] {
      var init, last := rows[..|rows| - 1], rows[|rows| - 1];
      ColumnsAreByAppearance(init);
      assert ColumnKeys(rows) == ColumnKeys(init) + [last.column];
      AppendingKeepsAppearance(ColumnKeys(init), PivotOf(init).columnOrder, last.column);
    }
  }

  /** Rows and columns come in the order in which their keys first appear. */
  lemma OrdersAreByAppearance(rows: seq<Keyed>)
    ensures ByAppearance(RowKeys(rows), PivotOf(rows).rowOrder)
    ensures ByAppearance(ColumnKeys(rows), PivotOf(rows).columnOrder)
  {
    RowsAreByAppearance(rows);
    ColumnsAreByAppearance(rows);
  }

  /** The sum of row `r` (of all rows, for `None`) over the given columns. */
  function SumOverColumns(rows: seq<Keyed>, r: Option<string>, cs: seq<string>): Metrics {
    if cs == [] then ZERO
    else Add(SumOverColumns(rows, r, cs[..|cs| - 1]), SumWhere(rows, r, Some(cs[|cs| - 1])))
  }

  lemma {:induction false} OneRowMore(rows: seq<Keyed>, last: Keyed, r: Option<string>, cs: seq<string>)
    requires Distinct(cs)
    ensures SumOverColumns(rows + [last], r, cs) ==
            if Matches(last, r, None) && last.column in cs
            then Add(SumOverColumns(rows, r, cs), last.metrics)
            else SumOverColumns(rows, r, cs)
  {
    if cs != [] {
      var init := cs[..|cs| - 1];
      OneRowMore(rows, last, r, init);
      assert cs == init + [cs[|cs| - 1]] && (rows + [last])[..|rows|] == rows;
    }
  }

  lemma {:induction false} NoRowsSumToZero(r: Option<string>, cs: seq<string>)
    ensures SumOverColumns([], r, cs) == ZERO
  {
    if cs != [] {
      NoRowsSumToZero(r, cs[..|cs| - 1]);
    }
  }

  predicate ColumnsWithin(rows: seq<Keyed>, cs: seq<string>) {
    forall i :: 0 <= i < |rows| ==> rows[i].column in cs
  }

  /** Summing over all columns counts every row once. */
  lemma {:induction false} ColumnsAddUp(rows: seq<Keyed>, r: Option<string>, cs: seq<string>)
    requires Distinct(cs) && ColumnsWithin(rows, cs)
    ensures SumOverColumns(rows, r, cs) == SumWhere(rows, r, None)
  {
    if rows == [] {
      NoRowsSumToZero(r, cs);
    } else {
      var init, last := rows[..|rows| - 1], rows[|rows| - 1];
      assert rows == init + [last];
      ColumnsAddUp(init, r, cs);
      OneRowMore(init, last, r, cs);
    }
  }

  /** The pivot turned round. */
  function Swapped(rows: seq<Keyed>): (swapped: seq<Keyed>)
    ensures |swapped| == |rows|
  {
    seq(|rows|, i requires 0 <= i < |rows| => Keyed(rows[i].column, rows[i].row, rows[i].metrics))
  }

  lemma {:induction false} SwappedSum(rows: seq<Keyed>, r: Option<string>, c: Option<string>)
    ensures SumWhere(Swapped(rows), c, r) == SumWhere(rows, r, c)
  {
    if rows != [] {
      SwappedSum(rows[..|rows| - 1], r, c);
      assert Swapped(rows)[..|rows| - 1] == Swapped(rows[..|rows| - 1]);
    }
  }

  // ----- What is shown

  /** The number in a cell, zero where there is none. */
  function Shown(p: Pivot, r: string, c: string): Metrics {
    if HasCell(p, r, c) && p.rows[r][c].Numbers? then p.rows[r][c].metrics else ZERO
  }

  function ShownRow(p: Pivot, r: string, cs: seq<string>): Metrics {
    if cs == [] then ZERO else Add(ShownRow(p, r, cs[..|cs| - 1]), Shown(p, r, cs[|cs| - 1]))
  }

  function ShownTotal(p: Pivot, rs: seq<string>, cs: seq<string>): Metrics {
    if rs == [] then ZERO else Add(ShownTotal(p, rs[..|rs| - 1], cs), ShownRow(p, rs[|rs| - 1], cs))
  }

  /** No column key is an inherited name. */
  predicate Ordinary(cs: seq<string>) {
    forall i :: 0 <= i < |cs| ==> cs[i] !in INHERITED
  }

  lemma {:induction false} ShownRowIsSum(rows: seq<Keyed>, r: string, cs: seq<string>)
    requires Ordinary(cs)
    ensures ShownRow(PivotOf(rows), r, cs) == SumOverColumns(rows, Some(r), cs)
  {
    if cs != [] {
      ShownRowIsSum(rows, r, cs[..|cs| - 1]);
      CellsAreSums(rows, r, cs[|cs| - 1]);
    }
  }

  lemma {:induction false} ShownTotalIsSum(rows: seq<Keyed>, rs: seq<string>, cs: seq<string>)
    requires Ordinary(cs) && Distinct(cs) && ColumnsWithin(rows, cs)
    ensures ShownTotal(PivotOf(rows), rs, cs) == SumOverColumns(Swapped(rows), None, rs)
  {
    if rs != [] {
      var r := rs[|rs| - 1];
      ShownTotalIsSum(rows, rs[..|rs| - 1], cs);
      ShownRowIsSum(rows, r, cs);
      ColumnsAddUp(rows, Some(r), cs);
      SwappedSum(rows, Some(r), None);
    }
  }

  /** No row's column key is an inherited name. */
  predicate OrdinaryRows(rows: seq<Keyed>) {
    forall i :: 0 <= i < |rows| ==> rows[i].column !in INHERITED
  }

  lemma {:induction false} OrdinaryRowsGiveOrdinaryColumns(rows: seq<Keyed>)
    requires OrdinaryRows(rows)
    ensures Ordinary(PivotOf(rows).columnOrder)
  {
    if rows != [] {
      OrdinaryRowsGiveOrdinaryColumns(rows[..|rows| - 1]);
    }
  }

  /** Every cell of the pivot is a number exactly when no column key is an inherited name. */
  lemma EveryCellIsANumberIffOrdinary(rows: seq<Keyed>)
    ensures (forall r, c :: HasCell(PivotOf(rows), r, c) ==> PivotOf(rows).rows[r][c].Numbers?) <==> OrdinaryRows(rows)
  {
    if OrdinaryRows(rows) {
      forall r, c | HasCell(PivotOf(rows), r, c) ensures PivotOf(rows).rows[r][c].Numbers? {
        CellsAreSums(rows, r, c);
      }
    } else {
      var i :| 0 <= i < |rows| && rows[i].column in INHERITED;
      assert Occurs(rows, rows[i].row, rows[i].column);
      CellsAreSums(rows, rows[i].row, rows[i].column);
      assert HasCell(PivotOf(rows), rows[i].row, rows[i].column);
    }
  }

  /** The cells add up to the input total, whatever the dimensions. */
  lemma GrandTotalIsConserved(rows: seq<Keyed>)
    requires OrdinaryRows(rows)
    ensures ShownTotal(PivotOf(rows), PivotOf(rows).rowOrder, PivotOf(rows).columnOrder) == SumWhere(rows, None, None)
  {
    OrdersListTheKeys(rows);
    OrdinaryRowsGiveOrdinaryColumns(rows);
    ShownTotalIsSum(rows, PivotOf(rows).rowOrder, PivotOf(rows).columnOrder);
    ColumnsAddUp(Swapped(rows), None, PivotOf(rows).rowOrder);
    SwappedSum(rows, None, None);
  }

  lemma {:induction false} WithoutColumnsThereIsOne(rows: seq<UsageRow>, rd: seq<Dimension>, cd: seq<Dimension>,
      r: string)
    ensures SumWhere(KeyedRows(rows, rd, []), Some(r), Some("total"))
        == SumWhere(KeyedRows(rows, rd, cd), Some(r), None)
  {
    if rows != [] {
      var n := |rows| - 1;
      WithoutColumnsThereIsOne(rows[..n], rd, cd, r);
      assert KeyedRows(rows, rd, [])[..n] == KeyedRows(rows[..n], rd, []);
      assert KeyedRows(rows, rd, cd)[..n] == KeyedRows(rows[..n], rd, cd);
    }
  }

  /** The cells of a row add up to the sum over its rows. */
  lemma RowTotalIsItsSum(rows: seq<Keyed>, r: string)
    requires OrdinaryRows(rows)
    ensures ShownRow(PivotOf(rows), r, PivotOf(rows).columnOrder) == SumWhere(rows, Some(r), None)
  {
    OrdersListTheKeys(rows);
    OrdinaryRowsGiveOrdinaryColumns(rows);
    ShownRowIsSum(rows, r, PivotOf(rows).columnOrder);
    ColumnsAddUp(rows, Some(r), PivotOf(rows).columnOrder);
  }

  /** They add up to the row's one cell in the pivot without column dimensions. */
  lemma RowTotalIsItsCellWithoutColumns(rows: seq<UsageRow>, rd: seq<Dimension>, cd: seq<Dimension>, r: string)
    requires OrdinaryRows(KeyedRows(rows, rd, cd))
    ensures var p := PivotOf(KeyedRows(rows, rd, cd));
            ShownRow(p, r, p.columnOrder) == Shown(PivotOf(KeyedRows(rows, rd, [])), r, "total")
  {
    var keyed, flat := KeyedRows(rows, rd, cd), KeyedRows(rows, rd, []);
    RowTotalIsItsSum(keyed, r);
    WithoutColumnsThereIsOne(rows, rd, cd, r);
    CellsAreSums(flat, r, "total");
    assert Shown(PivotOf(flat), r, "total") == SumWhere(flat, Some(r), Some("total"));
  }
}
