/** Read-only reports over the stock ledger: the per-warehouse summary
    (wms/internal/features/reporting/warehouse_summary.go) and the stock
    total and recent-movements queries (wms/internal/features/reporting/servic.go). */
module Reporting {
  import opened Base
  import opened Text
  import Sorting
  import opened Stock
  import opened Multiwarehouse

  datatype Summary = Summary(
    code: String, name: String,
    locationCount: nat, movementCount: nat,
    totalIn: int, totalOut: int, net: int)

  datatype ReportError = InvalidWarehouseCode | WarehouseNotFound | InvalidSKU

  /** The movements recorded at any of `locs`. */
  function AtLocations(ms: seq<Movement>, locs: seq<String>): seq<Movement> {
    Filter(ms, (m: Movement) => m.location in locs)
  }

  /** Sum of the quantities of the movements of one type; others are ignored. */
  function SumOf(ms: seq<Movement>, kind: MovementType): int
    decreases |ms|
  {
    if ms == [] then 0
    else SumOf(ms[..|ms| - 1], kind) + (if ms[|ms| - 1].kind == kind then ms[|ms| - 1].qty else 0)
  }

  /** Reference definition of the net: each movement's signed effect, replayed
      from the first. */
  function SignedSum(ms: seq<Movement>): int {
    if ms == [] then 0 else Signed(ms[0]) + SignedSum(ms[1..])
  }

  lemma {:induction false} SignedSumAppend(ms: seq<Movement>, m: Movement)
    ensures SignedSum(ms + [m]) == SignedSum(ms) + Signed(m)
  {
    if ms != [] {
      assert (ms + [m])[1..] == ms[1..] + [m];
      SignedSumAppend(ms[1..], m);
    }
  }

  /** The summary's net, IN total minus OUT total, is the signed sum of the
      movements. */
  lemma {:induction false} NetIsSignedSum(ms: seq<Movement>)
    ensures SumOf(ms, In) - SumOf(ms, Out) == SignedSum(ms)
    decreases |ms|
  {
    if ms != [] {
      var init := ms[..|ms| - 1];
      NetIsSignedSum(init);
      SignedSumAppend(init, ms[|ms| - 1]);
      assert init + [ms[|ms| - 1]] == ms;
    }
  }

  /** With no locations no movement matches, so the early return of a
      warehouse without locations agrees with the general totals. */
  lemma {:induction false} NoLocationsNoMovements(ms: seq<Movement>)
    ensures AtLocations(ms, []) == []
  {
    if ms != [] {
      NoLocationsNoMovements(ms[1..]);
    }
  }

  /** WarehouseSummaryReport. The code is compared as given, without trimming. */
  method WarehouseSummaryReport(warehouses: seq<Warehouse>, links: seq<Link>, ms: seq<Movement>, whCode: String)
    returns (r: Result<Summary, ReportError>)
    ensures r == Err(ReportError.InvalidWarehouseCode) <==> whCode == []
    ensures r == Err(ReportError.WarehouseNotFound) <==> whCode != [] && !HasWarehouse(warehouses, whCode)
    ensures r.Ok? <==> whCode != [] && HasWarehouse(warehouses, whCode)
    ensures r.Ok? ==>
      var locs := LocationsOf(links, whCode);
      var movs := AtLocations(ms, locs);
      Warehouse(r.value.code, r.value.name) in warehouses && r.value.code == whCode
      && r.value.locationCount == |locs| && r.value.movementCount == |movs|
      && r.value.totalIn == SumOf(movs, In) && r.value.totalOut == SumOf(movs, Out)
      && r.value.net == r.value.totalIn - r.value.totalOut
  {
    if whCode == [] {
      return Err(ReportError.InvalidWarehouseCode);
    }
    var found := Find(warehouses, (x: Warehouse) => x.code == whCode);
    if found.None? {
      return Err(ReportError.WarehouseNotFound);
    }
    var w := warehouses[found.value];
    var locs := LinkedLocations(LinksOf(links, whCode));
    if |locs| == 0 {
      NoLocationsNoMovements(ms);
      return Ok(Summary(w.code, w.name, 0, 0, 0, 0, 0));
    }
    var movs := AtLocations(ms, locs);
    var totalIn, totalOut := MovementTotals(movs);
    r := Ok(Summary(w.code, w.name, |locs|, |movs|, totalIn, totalOut, totalIn - totalOut));
  }

  /** The IN and OUT totals of the summary loop. */
  method MovementTotals(movs: seq<Movement>) returns (totalIn: int, totalOut: int)
    ensures totalIn == SumOf(movs, In) && totalOut == SumOf(movs, Out)
  {
    totalIn, totalOut := 0, 0;
    var j := 0;
    while j < |movs|
      invariant 0 <= j <= |movs|
      invariant totalIn == SumOf(movs[..j], In) && totalOut == SumOf(movs[..j], Out)
    {
      assert movs[..j + 1][..j] == movs[..j];
      match movs[j].kind {
        case In => totalIn := totalIn + movs[j].qty;
        case Out => totalOut := totalOut + movs[j].qty;
        case Other(_) =>
      }
      j := j + 1;
    }
    assert movs[..|movs|] == movs;
  }

  /** StockTotal: the stock service's total for the SKU, IN minus OUT over
      every location, with the same error for a blank SKU. */
  function StockTotalReport(ms: seq<Movement>, sku: String): (r: Result<int, StockError>)
    ensures r == Err(Stock.InvalidSKU) <==> TrimSpace(sku) == []
    ensures r.Ok? <==> TrimSpace(sku) != []
    ensures r.Ok? ==> r.value == StockTotal(ms, TrimSpace(sku))
  {
    StockBySKU(ms, sku)
  }

  const RecentMax := 200
  const RecentDefault := 50

  /** A row of the recent-movements report; an absent reference reads as "". */
  datatype MovementView = MovementView(
    kind: MovementType, sku: String, locationCode: String,
    quantity: int, reference: String, createdAt: int)

  function ViewOf(m: Movement): MovementView {
    MovementView(m.kind, m.sku, m.location, m.qty,
                 match m.reference case Some(t) => t case None => [], m.createdAt)
  }

  function CreatedAt(m: Movement): int { m.createdAt }

  /** The rows the query fetches: the SKU's movements, newest first, at most
      the clamped limit. */
  function Recent(ms: seq<Movement>, sku: String, limit: int): seq<Movement> {
    Take(Sorting.SortNewestFirst(Filter(ms, (m: Movement) => m.sku == sku), CreatedAt),
         ClampLimit(limit, RecentMax, RecentDefault))
  }

  lemma RecentSpec(ms: seq<Movement>, sku: String, limit: int)
    ensures |Recent(ms, sku, limit)| <= ClampLimit(limit, RecentMax, RecentDefault)
    ensures Sorting.NewestFirst(Recent(ms, sku, limit), CreatedAt)
    ensures forall m :: m in Recent(ms, sku, limit) ==> m in ms && m.sku == sku
    ensures |Filter(ms, (m: Movement) => m.sku == sku)| <= ClampLimit(limit, RecentMax, RecentDefault) ==>
      multiset(Recent(ms, sku, limit)) == multiset(Filter(ms, (m: Movement) => m.sku == sku))
    ensures forall x, y :: x in ms && x.sku == sku && x !in Recent(ms, sku, limit) && y in Recent(ms, sku, limit) ==>
      y.createdAt >= x.createdAt
  {
    var own := Filter(ms, (m: Movement) => m.sku == sku);
    var sorted := Sorting.SortNewestFirst(own, CreatedAt);
    forall x, y | x in ms && x.sku == sku && x !in Recent(ms, sku, limit) && y in Recent(ms, sku, limit)
      ensures y.createdAt >= x.createdAt
    {
      assert x in own;
      Sorting.NewestLeast(own, CreatedAt, ClampLimit(limit, RecentMax, RecentDefault), x, y);
    }
    forall m | m in Recent(ms, sku, limit) ensures m in ms && m.sku == sku {
      assert m in multiset(sorted);
      assert m in own;
    }
    if |own| <= ClampLimit(limit, RecentMax, RecentDefault) {
      assert Recent(ms, sku, limit) == sorted;
    }
  }

  /** The report's rows: one per fetched movement, copied field by field. */
  function RecentRows(ms: seq<Movement>, sku: String, limit: int): seq<MovementView> {
    var moves := Recent(ms, sku, limit);
    seq(|moves|, i requires 0 <= i < |moves| => ViewOf(moves[i]))
  }

  /** The rows are at most the clamped limit, newest first, and each one is a
      movement of the SKU. */
  lemma RecentRowsSpec(ms: seq<Movement>, sku: String, limit: int)
    ensures |RecentRows(ms, sku, limit)| <= ClampLimit(limit, RecentMax, RecentDefault)
    ensures forall i, j :: 0 <= i < j < |RecentRows(ms, sku, limit)| ==>
      RecentRows(ms, sku, limit)[i].createdAt >= RecentRows(ms, sku, limit)[j].createdAt
    ensures forall v :: v in RecentRows(ms, sku, limit) ==> v.sku == sku && exists m :: m in ms && ViewOf(m) == v
  {
    RecentSpec(ms, sku, limit);
    var moves := Recent(ms, sku, limit);
    var rows := RecentRows(ms, sku, limit);
    forall i, j | 0 <= i < j < |rows| ensures rows[i].createdAt >= rows[j].createdAt {
      assert CreatedAt(moves[i]) >= CreatedAt(moves[j]);
    }
    forall v | v in rows ensures v.sku == sku && exists m :: m in ms && ViewOf(m) == v {
      var i :| 0 <= i < |rows| && rows[i] == v;
      assert moves[i] in moves;
    }
  }

  lemma RowsStep(ms: seq<Movement>, sku: String, limit: int, i: nat)
    requires i < |Recent(ms, sku, limit)|
    ensures RecentRows(ms, sku, limit)[..i + 1] == RecentRows(ms, sku, limit)[..i] + [ViewOf(Recent(ms, sku, limit)[i])]
  {
  }

  /** RecentMovementsBySKU: a blank SKU is refused; otherwise the rows. */
  method RecentMovementsBySKU(ms: seq<Movement>, sku: String, limit: int)
    returns (r: Result<seq<MovementView>, ReportError>)
    ensures r == Err(ReportError.InvalidSKU) <==> TrimSpace(sku) == []
    ensures r.Ok? <==> TrimSpace(sku) != []
    ensures r.Ok? ==> r.value == RecentRows(ms, TrimSpace(sku), limit)
  {
    var s := TrimSpace(sku);
    if s == [] {
      return Err(ReportError.InvalidSKU);
    }
    var moves := Recent(ms, s, limit);
    var out: seq<MovementView> := [];
    var i := 0;
    while i < |moves|
      invariant 0 <= i <= |moves|
      invariant out == RecentRows(ms, s, limit)[..i]
    {
      var m := moves[i];
      var ref := match m.reference case Some(t) => t case None => [];
      RowsStep(ms, s, limit, i);
      out := out + [MovementView(m.kind, m.sku, m.location, m.qty, ref, m.createdAt)];
      i := i + 1;
    }
    r := Ok(out);
  }
}
