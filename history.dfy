/** The day-result records the game appends to its history, and the ledger
    sums that relate the history to the cash balance. */
module History {
  import opened Catalog

  datatype Kind = FoodTruck | Trolley | Report

  /** One history row: day, type, location, product, units sold, profit and
      the cash balance after the decision. A report row has no location, and
      the source's "Raport" label in its product column is represented by None. */
  datatype Entry = Entry(
    day: int,
    kind: Kind,
    location: Option<Location>,
    product: Option<Product>,
    sold: nat,
    profit: int,
    cashAfter: int)

  /** The row a sale appends: profit is the units times the unit price. */
  function SaleEntry(day: int, kind: Kind, pitch: Pitch, sold: nat, cashAfter: int): Entry
  {
    Entry(day, kind, Some(pitch.loc), Some(pitch.prod), sold, UnitPrice * sold, cashAfter)
  }

  /** The profit each report row records: `-cost // 7`, a floor division. */
  const ReportRowProfit: int := -ReportCost / ReportSpan

  function ReportRow(day: int, cashAfter: int): Entry
  {
    Entry(day, Report, None, None, 0, ReportRowProfit, cashAfter)
  }

  /** The seven rows a report appends, for days day .. day + 6, each showing
      the balance after the whole cost was deducted. */
  function ReportBlock(day: int, cashAfter: int): seq<Entry>
  {
    seq(ReportSpan, i => ReportRow(day + i, cashAfter))
  }

  /** A row is one the game can produce: sales within their mode's cap and
      priced at the unit price, report rows with no sale and the fixed share. */
  predicate WellFormed(e: Entry)
  {
    match e.kind
    case FoodTruck =>
      e.location.Some? && e.product.Some? && e.sold <= FoodTruckCap && e.profit == UnitPrice * e.sold
    case Trolley =>
      e.location.Some? && e.product.Some? && e.sold <= TrolleyCap && e.profit == UnitPrice * e.sold
    case Report =>
      e.location.None? && e.product.None? && e.sold == 0 && e.profit == ReportRowProfit
  }

  /** Sum of the profit column. */
  function ProfitSum(h: seq<Entry>): int
  {
    if h == [] then 0 else ProfitSum(h[..|h| - 1]) + h[|h| - 1].profit
  }

  /** Number of report rows. */
  function ReportRows(h: seq<Entry>): nat
  {
    if h == [] then 0 else ReportRows(h[..|h| - 1]) + (if h[|h| - 1].kind == Report then 1 else 0)
  }

  /** The ledger identity the history keeps with the balance: every sale row
      carries exactly its cash change, while each report row records 4/7 of a
      unit less than its share of the cost (seven rows of -72 for a cost of 500). */
  predicate Balanced(cash: int, h: seq<Entry>)
  {
    7 * cash == 7 * (StartCash + ProfitSum(h)) + 4 * ReportRows(h)
  }

  /** Both ledger sums are additive over concatenation. */
  lemma {:induction false} LedgerAppend(a: seq<Entry>, b: seq<Entry>)
    ensures ProfitSum(a + b) == ProfitSum(a) + ProfitSum(b)
    ensures ReportRows(a + b) == ReportRows(a) + ReportRows(b)
    decreases |b|
  {
    if b == [] {
      assert a + b == a;
    } else {
      var b' := b[..|b| - 1];
      assert (a + b)[..|a + b| - 1] == a + b';
      LedgerAppend(a, b');
    }
  }

  /** A report block records -504 in all, four less than the 500 the report
      costs, over exactly seven report rows. */
  lemma ReportBlockLedger(day: int, cashAfter: int)
    ensures |ReportBlock(day, cashAfter)| == ReportSpan
    ensures ReportRows(ReportBlock(day, cashAfter)) == 7
    ensures ProfitSum(ReportBlock(day, cashAfter)) == -ReportCost - 4
  {
    var b := ReportBlock(day, cashAfter);
    var i := 0;
    while i < |b|
      invariant 0 <= i <= |b|
      invariant ProfitSum(b[..i]) == -72 * i
      invariant ReportRows(b[..i]) == i
    {
      assert b[..i + 1][..i] == b[..i];
      assert b[i] == ReportRow(day + i, cashAfter);
      assert ReportRowProfit == -72;
      i := i + 1;
    }
    assert b[..|b|] == b;
  }

  /** Appending a sale row moves the balance by exactly its profit. */
  lemma SaleKeepsBalance(cash: int, h: seq<Entry>, e: Entry)
    requires Balanced(cash, h)
    requires e.kind != Report
    ensures Balanced(cash + e.profit, h + [e])
  {
  }

  /** Deducting the report cost and appending its block keeps the ledger. */
  lemma ReportKeepsBalance(cash: int, h: seq<Entry>, day: int)
    requires Balanced(cash, h)
    ensures Balanced(cash - ReportCost, h + ReportBlock(day, cash - ReportCost))
  {
    LedgerAppend(h, ReportBlock(day, cash - ReportCost));
    ReportBlockLedger(day, cash - ReportCost);
  }
}
