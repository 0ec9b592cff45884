/**
  Basket construction for the frequent-itemset miner: restrict the cleaned
  rows to the United Kingdom, pivot them into an invoice-by-item quantity
  table, keep only items bought on enough invoices, and turn quantities into
  presence flags.
*/
module Basket {
  import opened Optional
  import opened Transactions

  const UnitedKingdom: string := "United Kingdom"

  /** An item is kept when at least this many invoices contain it. */
  const MinInvoices: nat := 50

  /**
    A pivot table: one row per invoice, one column per item. Row and column
    order are not modelled; pandas orders both by their sorted keys.
  */
  datatype Table<T> = Table(invoices: set<string>, items: set<string>, cell: map<string, map<string, T>>)

  /** Every invoice row has a value in every item column, and nothing else. */
  predicate WellFormed<T>(t: Table<T>)
  {
    && t.cell.Keys == t.invoices
    && forall i | i in t.invoices :: t.cell[i].Keys == t.items
  }

  function UkRows(txns: seq<Txn>): (r: seq<Txn>)
    ensures |r| <= |txns|
    ensures forall t :: t in r <==> t in txns && t.country == UnitedKingdom
    ensures forall x :: multiset(r)[x] == if x.country == UnitedKingdom then multiset(txns)[x] else 0
  {
    if txns == [] then []
    else
      var rest := UkRows(txns[1..]);
      assert txns == [txns[0]] + txns[1..];
      if txns[0].country == UnitedKingdom then [txns[0]] + rest else rest
  }

  /** The summed quantity of `item` on `invoice`; rows without a description join no group. */
  function GroupQty(rows: seq<Txn>, invoice: string, item: string): (q: int)
    ensures (forall t | t in rows :: t.quantity > 0) ==> q >= 0
  {
    if rows == [] then 0
    else
      (if rows[0].invoice == invoice && rows[0].description == Some(item) then rows[0].quantity else 0)
      + GroupQty(rows[1..], invoice, item)
  }

  /** The (invoice, item) group keys: only rows with a description form a group. */
  function Invoices(rows: seq<Txn>): set<string>
  {
    set t | t in rows && t.description.Some? :: t.invoice
  }

  function Items(rows: seq<Txn>): set<string>
  {
    set t | t in rows && t.description.Some? :: t.description.value
  }

  /** Invoices on which at least one row carries `item`. */
  function InvoicesWith(rows: seq<Txn>, item: string): set<string>
  {
    set t | t in rows && t.description == Some(item) :: t.invoice
  }

  /**
    `groupby(["Invoice", "Description"]).sum().unstack().fillna(0)`: every
    invoice meets every item, and a pair no row mentions holds 0.
  */
  function QtyTable(rows: seq<Txn>): (t: Table<int>)
    ensures WellFormed(t)
    ensures t.invoices == Invoices(rows) && t.items == Items(rows)
    ensures forall i, d | i in t.invoices && d in t.items :: t.cell[i][d] == GroupQty(rows, i, d)
  {
    var items := Items(rows);
    Table(Invoices(rows), items, map i | i in Invoices(rows) :: map d | d in items :: GroupQty(rows, i, d))
  }

  /** `(basket > 0).sum(axis=0)` for one column: the invoices with a positive quantity of `item`. */
  function InvoiceCount(t: Table<int>, item: string): (n: nat)
    ensures n <= |t.invoices|
  {
    var counted := set i | i in t.invoices && i in t.cell && item in t.cell[i] && t.cell[i][item] > 0;
    SubsetSize(counted, t.invoices);
    |counted|
  }

  /** A subset is no larger than its superset. */
  lemma {:induction false} SubsetSize(a: set<string>, b: set<string>)
    requires a <= b
    ensures |a| <= |b|
  {
    if a != {} {
      var x :| x in a;
      SubsetSize(a - {x}, b - {x});
    }
  }

  /**
    Keep the columns of items with at least `minCount` positive invoices.
    Every invoice row stays, even one left with no retained item.
  */
  function Popular(t: Table<int>, minCount: nat): (r: Table<int>)
    requires WellFormed(t)
    ensures WellFormed(r)
    ensures r.invoices == t.invoices
    ensures forall d :: d in r.items <==> d in t.items && InvoiceCount(t, d) >= minCount
    ensures forall i, d | i in r.invoices && d in r.items :: r.cell[i][d] == t.cell[i][d]
  {
    var kept := set d | d in t.items && InvoiceCount(t, d) >= minCount;
    Table(t.invoices, kept, map i | i in t.invoices :: map d | d in kept :: t.cell[i][d])
  }

  /** `basket.gt(0).astype(bool)`. */
  function Presence(t: Table<int>): (r: Table<bool>)
    requires WellFormed(t)
    ensures WellFormed(r)
    ensures r.invoices == t.invoices && r.items == t.items
    ensures forall i, d | i in r.invoices && d in r.items :: r.cell[i][d] <==> t.cell[i][d] > 0
  {
    Table(t.invoices, t.items, map i | i in t.invoices :: map d | d in t.items :: t.cell[i][d] > 0)
  }

  /** The boolean basket the miner receives, for a given popularity threshold. */
  function BuildBasket(txns: seq<Txn>, minCount: nat): (b: Table<bool>)
    ensures WellFormed(b)
    ensures b.invoices == Invoices(UkRows(txns))
    ensures forall d :: d in b.items <==>
      d in Items(UkRows(txns)) && InvoiceCount(QtyTable(UkRows(txns)), d) >= minCount
    ensures forall i, d | i in b.invoices && d in b.items :: b.cell[i][d] <==> GroupQty(UkRows(txns), i, d) > 0
  {
    Presence(Popular(QtyTable(UkRows(txns)), minCount))
  }

  /**
    The basket the script builds from the raw rows: clean, keep the UK,
    threshold 50. A cell is true exactly when a surviving UK row of that
    invoice carries that item.
  */
  function MarketBasket(rows: seq<RawRow>): (b: Table<bool>)
    ensures WellFormed(b)
    ensures b.invoices == Invoices(UkRows(Clean(rows)))
    ensures forall d :: d in b.items <==>
      d in Items(UkRows(Clean(rows))) && |InvoicesWith(UkRows(Clean(rows)), d)| >= MinInvoices
    ensures forall i, d | i in b.invoices && d in b.items ::
      b.cell[i][d] <==> exists t :: t in Clean(rows) && t.country == UnitedKingdom && t.invoice == i && t.description == Some(d)
  {
    var txns := Clean(rows);
    BasketCells(txns, MinInvoices);
    BuildBasket(txns, MinInvoices)
  }

  /** A pair that no row mentions sums to 0. */
  lemma {:induction false} AbsentPairIsZero(rows: seq<Txn>, invoice: string, item: string)
    requires forall t | t in rows :: !(t.invoice == invoice && t.description == Some(item))
    ensures GroupQty(rows, invoice, item) == 0
  {
    if rows != [] {
      assert rows[0] in rows;
      assert forall t | t in rows[1..] :: t in rows;
      AbsentPairIsZero(rows[1..], invoice, item);
    }
  }

  /** Over positive quantities, a pair sums to a positive amount exactly when some row mentions it. */
  lemma {:induction false} GroupQtyPositive(rows: seq<Txn>, invoice: string, item: string)
    requires forall t | t in rows :: t.quantity > 0
    ensures GroupQty(rows, invoice, item) >= 0
    ensures GroupQty(rows, invoice, item) > 0 <==>
            exists t :: t in rows && t.invoice == invoice && t.description == Some(item)
  {
    if rows != [] {
      assert rows[0] in rows;
      assert forall t | t in rows[1..] :: t in rows;
      assert rows == [rows[0]] + rows[1..];
      GroupQtyPositive(rows[1..], invoice, item);
    }
  }

  /** Over positive quantities, a column's positive-invoice count is the number of distinct invoices carrying the item. */
  lemma CountIsDistinctInvoices(rows: seq<Txn>, item: string)
    requires forall t | t in rows :: t.quantity > 0
    ensures InvoiceCount(QtyTable(rows), item) == |InvoicesWith(rows, item)|
  {
    var t := QtyTable(rows);
    var counted := set i | i in t.invoices && i in t.cell && item in t.cell[i] && t.cell[i][item] > 0;
    forall i ensures i in counted <==> i in InvoicesWith(rows, item)
    {
      GroupQtyPositive(rows, i, item);
      if i in InvoicesWith(rows, item) {
        var w :| w in rows && w.description == Some(item) && w.invoice == i;
        assert i in Invoices(rows) && item in Items(rows);
      }
    }
    assert counted == InvoicesWith(rows, item);
  }

  /**
    The basket, stated against the cleaned rows: its invoices are the UK
    invoices with a described line, an item is a column exactly when at least
    `minCount` distinct UK invoices carry it, and a cell is true exactly when
    the summed UK quantity of that pair is positive -- which, with the
    positive quantities cleaning guarantees, means some UK row of that
    invoice carries that item.
  */
  lemma BasketCells(txns: seq<Txn>, minCount: nat)
    requires forall t | t in txns :: t.quantity > 0
    ensures var b := BuildBasket(txns, minCount);
      && b.invoices == Invoices(UkRows(txns))
      && (forall d :: d in b.items <==> d in Items(UkRows(txns)) && |InvoicesWith(UkRows(txns), d)| >= minCount)
      && (forall i, d | i in b.invoices && d in b.items ::
            (b.cell[i][d] <==> GroupQty(UkRows(txns), i, d) > 0)
            && (b.cell[i][d] <==> exists t :: t in txns && t.country == UnitedKingdom && t.invoice == i && t.description == Some(d)))
  {
    var uk := UkRows(txns);
    forall d ensures InvoiceCount(QtyTable(uk), d) == |InvoicesWith(uk, d)|
    {
      CountIsDistinctInvoices(uk, d);
    }
    forall i, d ensures GroupQty(uk, i, d) > 0 <==> exists t :: t in uk && t.invoice == i && t.description == Some(d)
    {
      GroupQtyPositive(uk, i, d);
    }
  }

  /**
    Three UK invoices {1: A, B}, {2: A, B}, {3: A} with threshold 2: both
    items keep their column, and invoice 3 has A but not B.
  */
  lemma ThreeInvoiceExample()
    ensures var b := BuildBasket(ExampleRows(), 2);
      && b.items == {"A", "B"}
      && b.invoices == {"1", "2", "3"}
      && b.cell["3"]["A"] && !b.cell["3"]["B"]
  {
    ExampleRowsUk();
    ExampleGroups();
    ExampleColumns(ExampleRows());
    ExampleCells();
  }

  /**
    Both items of the example are on all three or two invoices, so both keep
    their column. The rows come in as a parameter, pinned to the example, so
    that Dafny does not unroll the literal `ExampleRows()` in this proof.
  */
  lemma ExampleColumns(txns: seq<Txn>)
    requires txns == ExampleRows()
    ensures Popular(QtyTable(txns), 2).items == {"A", "B"}
  {
    ExampleRowsUk();
    ExampleGroups();
    ExampleInvoicesWith();
    var q := QtyTable(txns);
    CountIsDistinctInvoices(txns, "A");
    CountIsDistinctInvoices(txns, "B");
    assert q.items == {"A", "B"};
    forall d | d in q.items
      ensures InvoiceCount(q, d) >= 2
    {
      PairMember(q.items, "A", "B", d);
    }
    PopularKeepsAll(q, 2);
  }

  /** A member of a two-element set is one of the two. */
  lemma PairMember(s: set<string>, a: string, b: string, d: string)
    requires s == {a, b} && d in s
    ensures d == a || d == b
  {
  }

  /** A threshold every column meets removes no column. */
  lemma PopularKeepsAll(t: Table<int>, minCount: nat)
    requires WellFormed(t)
    requires forall d | d in t.items :: InvoiceCount(t, d) >= minCount
    ensures Popular(t, minCount).items == t.items
  {
  }

  /** Invoice 3 sums a positive quantity of A and none of B. */
  lemma ExampleCells()
    ensures GroupQty(ExampleRows(), "3", "A") > 0
    ensures GroupQty(ExampleRows(), "3", "B") <= 0
  {
  }

  /** The example rows are UK rows with positive quantities. */
  lemma ExampleRowsUk()
    ensures forall t | t in ExampleRows() :: t.quantity > 0 && t.country == UnitedKingdom
    ensures UkRows(ExampleRows()) == ExampleRows()
  {
    var txns := ExampleRows();
    forall t | t in txns
      ensures t.quantity == 1 && t.country == UnitedKingdom
    {
      var k :| 0 <= k < 5 && txns[k] == t;
    }
    AllUk(txns);
  }

  /** The example's group keys. */
  lemma ExampleGroups()
    ensures Invoices(ExampleRows()) == {"1", "2", "3"}
    ensures Items(ExampleRows()) == {"A", "B"}
  {
  }

  /** The invoices carrying each item of the example. */
  lemma ExampleInvoicesWith()
    ensures InvoicesWith(ExampleRows(), "A") == {"1", "2", "3"}
    ensures InvoicesWith(ExampleRows(), "B") == {"1", "2"}
    ensures |InvoicesWith(ExampleRows(), "A")| == 3
    ensures |InvoicesWith(ExampleRows(), "B")| == 2
    ensures !exists t :: t in ExampleRows() && t.invoice == "3" && t.description == Some("B")
  {
  }

  /** Restricting UK rows to the UK changes nothing. */
  lemma AllUk(rows: seq<Txn>)
    requires forall t | t in rows :: t.country == UnitedKingdom
    ensures UkRows(rows) == rows
  {
  }

  /** The rows of the example: one UK line per (invoice, item). */
  function ExampleRows(): seq<Txn>
  {
    [ Line("1", "A"), Line("1", "B"), Line("2", "A"), Line("2", "B"), Line("3", "A") ]
  }

  /** A UK line of quantity 1; the stock code repeats the description. */
  function Line(invoice: string, item: string): Txn
  {
    Txn(invoice, item, Some(item), 1, 0, 1.0, "17850", UnitedKingdom)
  }
}
