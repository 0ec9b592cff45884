/**
  RFM segmentation over the cleaned rows (all countries): per customer the
  days since the last purchase (Recency), the number of distinct invoices
  (Frequency) and the money spent (Monetary), each scored 1..4 against three
  quartile cut points and joined into a 3-character code such as "431".
*/
module Rfm {
  import opened Optional
  import opened Transactions

  const SecondsPerDay: int := 86400

  /** The `TotalPrice` column. */
  function LineTotal(t: Txn): (v: real)
    ensures t.quantity > 0 && t.unitPrice > 0.0 ==> v > 0.0
    ensures t.quantity == 0 || t.unitPrice == 0.0 ==> v == 0.0
  {
    t.quantity as real * t.unitPrice
  }

  /** The latest date, or None (pandas NaT) for no rows. */
  function MaxDate(txns: seq<Txn>): (m: Option<int>)
    ensures m.None? <==> txns == []
    ensures m.Some? ==> forall t | t in txns :: t.date <= m.value
    ensures m.Some? ==> exists t :: t in txns && t.date == m.value
  {
    if txns == [] then None
    else
      assert txns == [txns[0]] + txns[1..];
      match MaxDate(txns[1..])
      case None => Some(txns[0].date)
      case Some(d) => Some(if txns[0].date >= d then txns[0].date else d)
  }

  /** One day after the latest purchase. */
  function Snapshot(txns: seq<Txn>): (s: Option<int>)
    ensures s.None? <==> txns == []
    ensures s.Some? ==> forall t | t in txns :: s.value - t.date >= SecondsPerDay
    ensures s.Some? ==> exists t :: t in txns && s.value - t.date == SecondsPerDay
  {
    match MaxDate(txns)
    case None => None
    case Some(d) => Some(d + SecondsPerDay)
  }

  function Customers(txns: seq<Txn>): set<string>
  {
    set t | t in txns :: t.customer
  }

  /** One customer's rows, in order, duplicates included: the `groupby` group. */
  function RowsOf(txns: seq<Txn>, customer: string): (r: seq<Txn>)
    ensures |r| <= |txns|
    ensures forall t :: t in r <==> t in txns && t.customer == customer
    ensures forall x :: multiset(r)[x] == if x.customer == customer then multiset(txns)[x] else 0
  {
    if txns == [] then []
    else
      var rest := RowsOf(txns[1..], customer);
      assert txns == [txns[0]] + txns[1..];
      if txns[0].customer == customer then [txns[0]] + rest else rest
  }

  /** Whole days from a purchase to the snapshot, as `Timedelta.days` counts them (rounding down). */
  function DaysBefore(snapshot: int, date: int): int
  {
    (snapshot - date) / SecondsPerDay
  }

  /** `nunique` of the invoice ids. */
  function Frequency(rows: seq<Txn>): nat
  {
    |set t | t in rows :: t.invoice|
  }

  /** Sum of the line totals. */
  function Monetary(rows: seq<Txn>): real
  {
    if rows == [] then 0.0 else LineTotal(rows[0]) + Monetary(rows[1..])
  }

  /** The invoices a customer appears on, read off the whole table. */
  function InvoicesOf(txns: seq<Txn>, customer: string): set<string>
  {
    set t | t in txns && t.customer == customer :: t.invoice
  }

  /** What a customer spent, summed over the whole table: other customers' rows add 0. */
  function CustomerSpend(txns: seq<Txn>, customer: string): real
  {
    if txns == [] then 0.0
    else (if txns[0].customer == customer then LineTotal(txns[0]) else 0.0) + CustomerSpend(txns[1..], customer)
  }

  /** Summing a customer's group equals summing their rows over the whole table. */
  lemma {:induction false} SpendOfGroup(txns: seq<Txn>, customer: string)
    ensures Monetary(RowsOf(txns, customer)) == CustomerSpend(txns, customer)
  {
    if txns != [] {
      SpendOfGroup(txns[1..], customer);
      var rest := RowsOf(txns[1..], customer);
      if txns[0].customer == customer {
        assert RowsOf(txns, customer) == [txns[0]] + rest;
        assert ([txns[0]] + rest)[1..] == rest;
      } else {
        assert RowsOf(txns, customer) == rest;
      }
    }
  }

  /** The distinct invoices of a customer's group are those the customer appears on. */
  lemma FrequencyOfGroup(txns: seq<Txn>, customer: string)
    ensures Frequency(RowsOf(txns, customer)) == |InvoicesOf(txns, customer)|
  {
    var rows := RowsOf(txns, customer);
    assert (set t | t in rows :: t.invoice) == InvoicesOf(txns, customer);
  }

  datatype Metrics = Metrics(recency: int, frequency: nat, monetary: real)

  /** The metrics of one customer who has at least one row. */
  function CustomerMetrics(txns: seq<Txn>, snapshot: int, customer: string): Metrics
    requires customer in Customers(txns)
  {
    var rows := RowsOf(txns, customer);
    var w :| w in txns && w.customer == customer;
    assert w in rows;
    Metrics(DaysBefore(snapshot, MaxDate(rows).value), Frequency(rows), Monetary(rows))
  }

  /** The last purchase date of a customer who has at least one row. */
  function LastPurchase(txns: seq<Txn>, customer: string): (d: int)
    requires customer in Customers(txns)
    ensures forall t | t in txns && t.customer == customer :: t.date <= d
    ensures exists t :: t in txns && t.customer == customer && t.date == d
  {
    var rows := RowsOf(txns, customer);
    var w :| w in txns && w.customer == customer;
    assert w in rows;
    MaxDate(rows).value
  }

  /**
    The `rfm` table: one entry per customer. Recency is the whole days from
    the customer's last purchase to the snapshot, Frequency the number of
    distinct invoices they appear on, Monetary what they spent. Every Recency
    is at least 1, exactly 1 for whoever bought within the last day before
    the latest purchase (so for the latest buyer), and every Frequency is
    between 1 and the customer's number of rows.
  */
  function RfmTable(txns: seq<Txn>): (m: map<string, Metrics>)
    ensures m.Keys == Customers(txns)
    ensures forall c | c in m ::
      (Snapshot(txns).Some? && m[c].recency == DaysBefore(Snapshot(txns).value, LastPurchase(txns, c)))
    ensures forall c | c in m :: m[c].frequency == |InvoicesOf(txns, c)|
    ensures forall c | c in m :: m[c].monetary == CustomerSpend(txns, c)
    ensures forall c | c in m :: m[c].recency >= 1
    ensures forall c | c in m ::
      (m[c].recency == 1 <==> LastPurchase(txns, c) > MaxDate(txns).value - SecondsPerDay)
    ensures txns != [] ==> exists c | c in m :: m[c].recency == 1
    ensures forall c | c in m :: 1 <= m[c].frequency <= |RowsOf(txns, c)|
  {
    if txns == [] then map[]
    else
      var m := MetricsBySnapshot(txns, Snapshot(txns).value);
      RfmFacts(txns, Snapshot(txns).value);
      m
  }

  /** `groupby("CustomerID").agg(...)` against a given snapshot. */
  function MetricsBySnapshot(txns: seq<Txn>, s: int): (m: map<string, Metrics>)
    ensures m.Keys == Customers(txns)
    ensures forall c | c in m :: m[c].recency == DaysBefore(s, LastPurchase(txns, c))
    ensures forall c | c in m :: m[c].frequency == |InvoicesOf(txns, c)|
    ensures forall c | c in m :: m[c].monetary == CustomerSpend(txns, c)
  {
    var m := map c | c in Customers(txns) :: CustomerMetrics(txns, s, c);
    forall c | c in m
      ensures m[c].frequency == |InvoicesOf(txns, c)|
      ensures m[c].monetary == CustomerSpend(txns, c)
    {
      FrequencyOfGroup(txns, c);
      SpendOfGroup(txns, c);
    }
    m
  }

  /** The Recency and Frequency bounds `RfmTable` states, proved against a given snapshot. */
  lemma RfmFacts(txns: seq<Txn>, s: int)
    requires Snapshot(txns) == Some(s)
    ensures var m := MetricsBySnapshot(txns, s);
      && (forall c | c in m :: m[c].recency >= 1)
      && (forall c | c in m ::
            (m[c].recency == 1 <==> LastPurchase(txns, c) > MaxDate(txns).value - SecondsPerDay))
      && (exists c | c in m :: m[c].recency == 1)
      && (forall c | c in m :: 1 <= m[c].frequency <= |RowsOf(txns, c)|)
  {
    var m := MetricsBySnapshot(txns, s);
    var latest := MaxDate(txns).value;
    assert s == latest + SecondsPerDay;
    forall c | c in m
      ensures m[c].recency >= 1
      ensures m[c].recency == 1 <==> LastPurchase(txns, c) > latest - SecondsPerDay
      ensures 1 <= m[c].frequency <= |RowsOf(txns, c)|
    {
      var rows := RowsOf(txns, c);
      var last := LastPurchase(txns, c);
      var w :| w in txns && w.customer == c && w.date == last;
      assert last <= latest;
      assert m[c].recency == DaysBefore(s, last);
      DaysBeforeIsOne(s, last);
      assert w in rows;
      FrequencyBounds(rows);
    }
    var t :| t in txns && t.date == latest;
    assert t.customer in m;
    DaysBeforeIsOne(s, LastPurchase(txns, t.customer));
  }

  /** Whole days between a date and a snapshot at least a day later. */
  lemma DaysBeforeIsOne(snapshot: int, date: int)
    requires snapshot - date >= SecondsPerDay
    ensures DaysBefore(snapshot, date) >= 1
    ensures DaysBefore(snapshot, date) == 1 <==> snapshot - date < 2 * SecondsPerDay
  {
  }

  /** A customer with at least one row has between 1 and that many distinct invoices. */
  lemma {:induction false} FrequencyBounds(rows: seq<Txn>)
    ensures rows != [] ==> Frequency(rows) >= 1
    ensures Frequency(rows) <= |rows|
  {
    if rows != [] {
      var invoices := set t | t in rows :: t.invoice;
      var restInvoices := set t | t in rows[1..] :: t.invoice;
      assert rows == [rows[0]] + rows[1..];
      assert invoices == restInvoices + {rows[0].invoice};
      assert rows[0].invoice in invoices;
      FrequencyBounds(rows[1..]);
    }
  }

  /** Over cleaned rows every customer has spent a positive amount. */
  lemma {:induction false} MonetaryPositive(rows: seq<Txn>)
    requires forall t | t in rows :: ValidTxn(t)
    ensures rows != [] ==> Monetary(rows) > 0.0
    ensures Monetary(rows) >= 0.0
  {
    if rows != [] {
      assert rows[0] in rows;
      assert forall t | t in rows[1..] :: t in rows;
      assert rows[0].quantity as real >= 1.0;
      MonetaryPositive(rows[1..]);
    }
  }

  /** A later last purchase never gives a larger Recency. */
  lemma RecencyAntitone(txns: seq<Txn>, a: string, b: string)
    requires a in Customers(txns) && b in Customers(txns)
    requires LastPurchase(txns, a) >= LastPurchase(txns, b)
    ensures RfmTable(txns)[a].recency <= RfmTable(txns)[b].recency
  {
  }

  /** Over cleaned rows every customer's Monetary value is positive. */
  lemma TableMonetaryPositive(txns: seq<Txn>)
    requires forall t | t in txns :: ValidTxn(t)
    ensures forall c | c in RfmTable(txns) :: RfmTable(txns)[c].monetary > 0.0
  {
    var m := RfmTable(txns);
    forall c | c in m ensures m[c].monetary > 0.0
    {
      var rows := RowsOf(txns, c);
      var w :| w in txns && w.customer == c;
      assert w in rows;
      MonetaryPositive(rows);
    }
  }
}
