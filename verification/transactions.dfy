/**
  The retail transaction table and its cleaning step. A raw row is one
  (invoice, product) line of the Online Retail II export, after
  `pd.to_datetime(..., errors="coerce")` has turned the date into either a
  timestamp or a missing value. Timestamps count seconds.
*/
module Transactions {
  import opened Optional

  /** One line of the raw table; a missing description or customer id is None. */
  datatype RawRow = RawRow(
    invoice: string,
    stockCode: string,
    description: Option<string>,
    quantity: int,
    date: Option<int>,
    unitPrice: real,
    customer: Option<string>,
    country: string)

  /**
    A row that survived cleaning: its date parsed, its customer id turned
    into text.
  */
  datatype Txn = Txn(
    invoice: string,
    stockCode: string,
    description: Option<string>,
    quantity: int,
    date: int,
    unitPrice: real,
    customer: string,
    country: string)

  /** Invoice numbers of cancellations start with this marker. */
  const CancellationPrefix: string := "C"

  predicate StartsWith(s: string, prefix: string)
  {
    |prefix| <= |s| && s[..|prefix|] == prefix
  }

  predicate IsCancellation(invoice: string)
  {
    StartsWith(invoice, CancellationPrefix)
  }

  /** The conditions a raw row must meet to survive cleaning. */
  predicate Keep(r: RawRow)
  {
    && r.date.Some?
    && r.quantity > 0
    && r.unitPrice > 0.0
    && !IsCancellation(r.invoice)
  }

  /** What every cleaned row satisfies. */
  predicate ValidTxn(t: Txn)
  {
    t.quantity > 0 && t.unitPrice > 0.0 && !IsCancellation(t.invoice)
  }

  /** The text pandas' `astype(str)` gives a missing value. */
  const MissingText: string := "nan"

  /** `astype(str)` on the customer id column. */
  function CustomerText(id: Option<string>): (s: string)
    ensures id.Some? ==> s == id.value
    ensures id.None? ==> s == MissingText
  {
    match id
    case Some(v) => v
    case None => MissingText
  }

  function ToTxn(r: RawRow): (t: Txn)
    requires r.date.Some?
    ensures t.date == r.date.value
    ensures t.customer == CustomerText(r.customer)
  {
    Txn(r.invoice, r.stockCode, r.description, r.quantity, r.date.value,
        r.unitPrice, CustomerText(r.customer), r.country)
  }

  /**
    Drop rows with an unparsable date, a non-positive quantity or price, or
    a cancellation invoice. Rows are only removed, never changed or reordered.
    The customer id is converted to text before the missing-value drop, and
    (as pandas 2.x does) a missing id becomes "nan", so that drop never
    removes a row for its customer id.
  */
  function Clean(rows: seq<RawRow>): (r: seq<Txn>)
    ensures |r| <= |rows|
    ensures |r| == |rows| <==> forall i | 0 <= i < |rows| :: Keep(rows[i])
    ensures forall t | t in r :: ValidTxn(t)
    ensures forall i | 0 <= i < |rows| && Keep(rows[i]) :: ToTxn(rows[i]) in r
    ensures forall t | t in r :: exists i :: 0 <= i < |rows| && Keep(rows[i]) && ToTxn(rows[i]) == t
  {
    if rows == [] then []
    else
      var rest := Clean(rows[1..]);
      assert forall i | 1 <= i < |rows| :: rows[i] == rows[1..][i - 1];
      if Keep(rows[0]) then [ToTxn(rows[0])] + rest else rest
  }

  /** Cleaning distributes over concatenation, so it preserves the order of the rows it keeps. */
  lemma {:induction false} CleanAppend(a: seq<RawRow>, b: seq<RawRow>)
    ensures Clean(a + b) == Clean(a) + Clean(b)
  {
    if a == [] {
      assert a + b == b;
    } else {
      assert (a + b)[1..] == a[1..] + b;
      CleanAppend(a[1..], b);
    }
  }

  /** A row whose only defect is a missing customer id is kept, under the customer "nan". */
  lemma MissingCustomerKept(rows: seq<RawRow>, i: nat)
    requires i < |rows|
    requires rows[i].customer.None?
    requires rows[i].date.Some? && rows[i].quantity > 0 && rows[i].unitPrice > 0.0
    requires !IsCancellation(rows[i].invoice)
    ensures exists t :: t in Clean(rows) && t.customer == MissingText && t.invoice == rows[i].invoice
  {
    assert ToTxn(rows[i]) in Clean(rows);
  }

  /** Cleaning a single row keeps it exactly when it meets the conditions. */
  lemma CleanSingle(r: RawRow)
    ensures Keep(r) ==> Clean([r]) == [ToTxn(r)]
    ensures !Keep(r) ==> Clean([r]) == []
  {
    assert [r][1..] == [];
  }
}
