/** The row loop: each (name, value, type) row is classified; revenue and
    expense rows are stored by name (a later row with the same name replaces
    the value), cost rows are added to the cost of revenue, and rows of no
    known type are dropped. */
module Bucketing {
  import opened Lists
  import opened Classification
  import opened OrderedDicts

  datatype Row = Row(name: string, value: real, rowType: string)

  datatype Buckets = Buckets(revenueItems: Dict, cogsValue: real, expenseItems: Dict)

  datatype Option<T> = None | Some(value: T)

  ghost predicate ValidBuckets(b: Buckets) {
    Valid(b.revenueItems) && Valid(b.expenseItems)
  }

  /** The dictionary a category is stored in; cost rows have none. */
  function ItemsFor(b: Buckets, cat: Category): Dict
    requires cat == Revenue || cat == Expense
  {
    if cat == Revenue then b.revenueItems else b.expenseItems
  }

  /** One pass of the loop body. */
  function AddRow(b: Buckets, row: Row): (r: Buckets)
    requires ValidBuckets(b)
    ensures ValidBuckets(r)
    ensures Classify(row.rowType) == Unknown ==> r == b
    ensures Classify(row.rowType) == CostOfRevenue ==>
      r.cogsValue == b.cogsValue + row.value
      && r.revenueItems == b.revenueItems && r.expenseItems == b.expenseItems
    ensures Classify(row.rowType) == Revenue ==>
      r.cogsValue == b.cogsValue && r.expenseItems == b.expenseItems
    ensures Classify(row.rowType) == Expense ==>
      r.cogsValue == b.cogsValue && r.revenueItems == b.revenueItems
    ensures Classify(row.rowType) in {Revenue, Expense} ==>
      var before, after := ItemsFor(b, Classify(row.rowType)), ItemsFor(r, Classify(row.rowType));
      after.vals == before.vals[row.name := row.value]
      && after.keys == if row.name in before.vals then before.keys else before.keys + [row.name]
  {
    match Classify(row.rowType)
    case Revenue => b.(revenueItems := Put(b.revenueItems, row.name, row.value))
    case CostOfRevenue => b.(cogsValue := b.cogsValue + row.value)
    case Expense => b.(expenseItems := Put(b.expenseItems, row.name, row.value))
    case Unknown => b
  }

  /** The buckets after the loop has consumed `rows`, starting from two empty
      dictionaries and a zero cost. */
  function Bucketed(rows: seq<Row>): (b: Buckets)
    ensures ValidBuckets(b)
  {
    if rows == [] then Buckets(Empty, 0.0, Empty)
    else AddRow(Bucketed(rows[..|rows| - 1]), rows[|rows| - 1])
  }

  /** The loop over the rows of the uploaded table. */
  method LoadRows(rows: seq<Row>) returns (revenueItems: Dict, cogsValue: real, expenseItems: Dict)
    ensures Buckets(revenueItems, cogsValue, expenseItems) == Bucketed(rows)
  {
    revenueItems, cogsValue, expenseItems := Empty, 0.0, Empty;
    for i := 0 to |rows|
      invariant Buckets(revenueItems, cogsValue, expenseItems) == Bucketed(rows[..i])
    {
      assert rows[..i + 1][..i] == rows[..i];
      var row := rows[i];
      match Classify(row.rowType)
      case Revenue =>
        revenueItems := Put(revenueItems, row.name, row.value);
      case CostOfRevenue =>
        cogsValue := cogsValue + row.value;
      case Expense =>
        expenseItems := Put(expenseItems, row.name, row.value);
      case Unknown =>
    }
    assert rows[..|rows|] == rows;
  }

  /** The rows of one category, in input order. */
  function RowsOf(rows: seq<Row>, cat: Category): (r: seq<Row>)
    ensures |r| <= |rows|
    ensures forall x :: x in r ==> x in rows && Classify(x.rowType) == cat
  {
    if rows == [] then []
    else if Classify(rows[|rows| - 1].rowType) == cat then RowsOf(rows[..|rows| - 1], cat) + [rows[|rows| - 1]]
    else RowsOf(rows[..|rows| - 1], cat)
  }

  /** The rows of a known category, in input order. */
  function KnownRows(rows: seq<Row>): (r: seq<Row>)
    ensures forall x :: x in r ==> x in rows && Classify(x.rowType) != Unknown
  {
    if rows == [] then []
    else if Classify(rows[|rows| - 1].rowType) != Unknown then KnownRows(rows[..|rows| - 1]) + [rows[|rows| - 1]]
    else KnownRows(rows[..|rows| - 1])
  }

  /** (name, value) pairs of rows. */
  function Pairs(rows: seq<Row>): (r: seq<(string, real)>)
    ensures |r| == |rows|
    ensures forall i :: 0 <= i < |rows| ==> r[i] == (rows[i].name, rows[i].value)
  {
    seq(|rows|, i requires 0 <= i < |rows| => (rows[i].name, rows[i].value))
  }

  /** Sum of the values of the rows of one category. */
  function CategorySum(rows: seq<Row>, cat: Category): real {
    SumValues(Pairs(RowsOf(rows, cat)))
  }

  /** The value of the last row of category `cat` named `name`, if any. */
  function LastValue(rows: seq<Row>, cat: Category, name: string): Option<real> {
    if rows == [] then None
    else if Classify(rows[|rows| - 1].rowType) == cat && rows[|rows| - 1].name == name then Some(rows[|rows| - 1].value)
    else LastValue(rows[..|rows| - 1], cat, name)
  }

  /** Rows of no known type change no bucket: dropping them all gives the
      same buckets. */
  lemma {:induction false} UnknownRowsIgnored(rows: seq<Row>)
    ensures Bucketed(KnownRows(rows)) == Bucketed(rows)
  {
    if rows != [] {
      var init, last := rows[..|rows| - 1], rows[|rows| - 1];
      UnknownRowsIgnored(init);
      if Classify(last.rowType) != Unknown {
        var k := KnownRows(init) + [last];
        assert k[..|k| - 1] == KnownRows(init);
      }
    }
  }

  /** The cost of revenue is the sum of every cost row's value. */
  lemma {:induction false} CogsIsCategorySum(rows: seq<Row>)
    ensures Bucketed(rows).cogsValue == CategorySum(rows, CostOfRevenue)
  {
    if rows != [] {
      var init, last := rows[..|rows| - 1], rows[|rows| - 1];
      CogsIsCategorySum(init);
      if Classify(last.rowType) == CostOfRevenue {
        var c := RowsOf(init, CostOfRevenue) + [last];
        assert Pairs(c)[..|c| - 1] == Pairs(RowsOf(init, CostOfRevenue));
      }
    }
  }

  /** Last write wins: a name is a key of the revenue (or expense) dictionary
      exactly when some revenue (or expense) row carries it, and its value is
      the one of the last such row. */
  lemma {:induction false} LastWriteWins(rows: seq<Row>, cat: Category, name: string)
    requires cat == Revenue || cat == Expense
    ensures var d := ItemsFor(Bucketed(rows), cat);
      (name in d.vals <==> LastValue(rows, cat, name).Some?)
      && (name in d.vals ==> d.vals[name] == LastValue(rows, cat, name).value)
  {
    if rows != [] {
      LastWriteWins(rows[..|rows| - 1], cat, name);
    }
  }

  /** A row whose name is already a key replaces the value in place: the key
      list keeps its order and its length. */
  lemma RepeatedNameKeepsKeys(b: Buckets, row: Row)
    requires ValidBuckets(b)
    requires Classify(row.rowType) in {Revenue, Expense}
    requires row.name in ItemsFor(b, Classify(row.rowType)).vals
    ensures ItemsFor(AddRow(b, row), Classify(row.rowType)).keys == ItemsFor(b, Classify(row.rowType)).keys
    ensures ItemsFor(AddRow(b, row), Classify(row.rowType)).vals[row.name] == row.value
  {
  }

  /** When no two rows of a category share a name, its dictionary lists
      exactly those rows, in input order. */
  lemma {:induction false} ItemsWhenNamesDistinct(rows: seq<Row>, cat: Category)
    requires cat == Revenue || cat == Expense
    requires Distinct(Names(RowsOf(rows, cat)))
    ensures Items(ItemsFor(Bucketed(rows), cat)) == Pairs(RowsOf(rows, cat))
  {
    if rows != [] {
      var init, last := rows[..|rows| - 1], rows[|rows| - 1];
      var before := RowsOf(init, cat);
      if Classify(last.rowType) == cat {
        assert RowsOf(rows, cat) == before + [last];
        assert Distinct(Names(before)) && last.name !in Names(before) by {
          assert Names(before + [last]) == Names(before) + [last.name];
          DistinctPrefix(Names(before), last.name);
        }
        ItemsWhenNamesDistinct(init, cat);
        AddNewName(Bucketed(init), before, last, cat);
      } else {
        assert RowsOf(rows, cat) == before;
        ItemsWhenNamesDistinct(init, cat);
      }
    }
  }

  /** A row of category `cat` whose name the dictionary does not yet list is
      appended to the dictionary's items. */
  lemma AddNewName(b: Buckets, before: seq<Row>, last: Row, cat: Category)
    requires cat == Revenue || cat == Expense
    requires ValidBuckets(b) && Classify(last.rowType) == cat
    requires Items(ItemsFor(b, cat)) == Pairs(before) && last.name !in Names(before)
    ensures Items(ItemsFor(AddRow(b, last), cat)) == Pairs(before + [last])
  {
    var d := ItemsFor(b, cat);
    assert ItemsFor(AddRow(b, last), cat) == Put(d, last.name, last.value);
    PutNewName(d, before, last);
  }

  /** A dictionary listing exactly the rows `before`, given a row whose name
      none of them has, lists exactly `before` and that row. */
  lemma PutNewName(d: Dict, before: seq<Row>, last: Row)
    requires Valid(d) && Items(d) == Pairs(before) && last.name !in Names(before)
    ensures Items(Put(d, last.name, last.value)) == Pairs(before + [last])
  {
    NewNameNotKey(d, before, last.name);
    ItemsPutNew(d, last.name, last.value);
    assert Pairs(before + [last]) == Pairs(before) + [(last.name, last.value)];
  }

  /** A dictionary listing exactly the rows `before` has none of their
      names missing and no other key. */
  lemma NewNameNotKey(d: Dict, before: seq<Row>, name: string)
    requires Valid(d) && Items(d) == Pairs(before) && name !in Names(before)
    ensures name !in d.vals
  {
    forall i | 0 <= i < |d.keys| ensures d.keys[i] != name {
      assert Items(d)[i].0 == before[i].name == Names(before)[i];
    }
  }

  /** The names of rows, in order. */
  function Names(rows: seq<Row>): (r: seq<string>)
    ensures |r| == |rows|
    ensures forall i :: 0 <= i < |rows| ==> r[i] == rows[i].name
  {
    seq(|rows|, i requires 0 <= i < |rows| => rows[i].name)
  }

  lemma DistinctPrefix(s: seq<string>, x: string)
    requires Distinct(s + [x])
    ensures Distinct(s) && x !in s
  {
    forall i | 0 <= i < |s| ensures s[i] != x {
      assert (s + [x])[i] == s[i] && (s + [x])[|s|] == x;
    }
    forall i, j | 0 <= i < j < |s| ensures s[i] != s[j] {
      assert (s + [x])[i] == s[i] && (s + [x])[j] == s[j];
    }
  }

  /** The dictionary total of a category whose names are distinct is the sum
      of all its rows. */
  lemma TotalWhenNamesDistinct(rows: seq<Row>, cat: Category)
    requires cat == Revenue || cat == Expense
    requires Distinct(Names(RowsOf(rows, cat)))
    ensures Sum(ItemsFor(Bucketed(rows), cat)) == CategorySum(rows, cat)
  {
    ItemsWhenNamesDistinct(rows, cat);
  }
}
