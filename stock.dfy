/** The stock ledger of wms/internal/core/inventory/stock/service.go: an
    append-only log of IN/OUT movements; stock is never stored, only summed
    from the log. */
module Stock {
  import opened Base
  import opened Text

  /** The `type` column. `Other` stands for any string other than "IN" and
      "OUT" that a row might carry; the sums ignore such rows. */
  datatype MovementType = In | Out | Other(name: String)

  /** One row of the movement table: item and location by their unique SKU
      and code, a positive quantity, an optional reference, a creation time. */
  datatype Movement = Movement(
    sku: String, location: String, kind: MovementType, qty: int,
    reference: Option<String>, createdAt: int)

  datatype StockError =
    | InvalidSKU | InvalidLocation | InvalidQuantity | InsufficientStock
    | ItemNotFound       // "fetching item": no item has the SKU
    | LocationNotFound   // "fetching location": no location has the code

  /** The row filter of the aggregation queries: the item, optionally the
      location, and the movement type. */
  predicate Matches(m: Movement, sku: String, loc: Option<String>, kind: MovementType) {
    m.sku == sku && (loc.None? || m.location == loc.value) && m.kind == kind
  }

  /** `SUM(quantity)` over the matching rows; an empty sum is 0. */
  function SumQty(ms: seq<Movement>, sku: String, loc: Option<String>, kind: MovementType): int
    decreases |ms|
  {
    if ms == [] then 0
    else
      var last := ms[|ms| - 1];
      SumQty(ms[..|ms| - 1], sku, loc, kind) + (if Matches(last, sku, loc, kind) then last.qty else 0)
  }

  /** Stock at one (SKU, location) pair: sum of IN minus sum of OUT. */
  function StockAt(ms: seq<Movement>, sku: String, loc: String): int {
    SumQty(ms, sku, Some(loc), In) - SumQty(ms, sku, Some(loc), Out)
  }

  /** Stock of a SKU over all locations: sum of IN minus sum of OUT. */
  function StockTotal(ms: seq<Movement>, sku: String): int {
    SumQty(ms, sku, None, In) - SumQty(ms, sku, None, Out)
  }

  /** The signed effect of one movement on the balance of its own pair. */
  function Signed(m: Movement): int {
    match m.kind
    case In => m.qty
    case Out => -m.qty
    case Other(_) => 0
  }

  /** The signed effect of `m` on the balance of the pair (sku, loc). */
  function Delta(m: Movement, sku: String, loc: String): int {
    if m.sku == sku && m.location == loc then Signed(m) else 0
  }

  /** Reference definition: the running balance obtained by replaying the
      log from its first movement to its last. */
  function Balance(ms: seq<Movement>, sku: String, loc: String): int {
    if ms == [] then 0 else Delta(ms[0], sku, loc) + Balance(ms[1..], sku, loc)
  }

  /** Appending one movement changes exactly its own pair, by its signed quantity. */
  lemma StockAtAppend(ms: seq<Movement>, m: Movement, sku: String, loc: String)
    ensures StockAt(ms + [m], sku, loc) == StockAt(ms, sku, loc) + Delta(m, sku, loc)
  {
    assert (ms + [m])[..|ms|] == ms;
  }

  lemma StockTotalAppend(ms: seq<Movement>, m: Movement, sku: String)
    ensures StockTotal(ms + [m], sku) == StockTotal(ms, sku) + (if m.sku == sku then Signed(m) else 0)
  {
    assert (ms + [m])[..|ms|] == ms;
  }

  lemma {:induction false} BalanceAppend(ms: seq<Movement>, m: Movement, sku: String, loc: String)
    ensures Balance(ms + [m], sku, loc) == Balance(ms, sku, loc) + Delta(m, sku, loc)
  {
    if ms != [] {
      assert (ms + [m])[1..] == ms[1..] + [m];
      BalanceAppend(ms[1..], m, sku, loc);
    }
  }

  /** The sum-of-IN-minus-sum-of-OUT query equals the replayed running balance. */
  lemma {:induction false} StockAtIsBalance(ms: seq<Movement>, sku: String, loc: String)
    ensures StockAt(ms, sku, loc) == Balance(ms, sku, loc)
  {
    if ms != [] {
      var init := ms[..|ms| - 1];
      assert ms == init + [ms[|ms| - 1]];
      StockAtIsBalance(init, sku, loc);
      StockAtAppend(init, ms[|ms| - 1], sku, loc);
      BalanceAppend(init, ms[|ms| - 1], sku, loc);
    }
  }

  /** Σ StockAt over a list of locations. */
  function SumOverLocations(ms: seq<Movement>, sku: String, locs: seq<String>): int {
    if locs == [] then 0 else StockAt(ms, sku, locs[0]) + SumOverLocations(ms, sku, locs[1..])
  }

  predicate Distinct(locs: seq<String>) {
    forall i, j :: 0 <= i < j < |locs| ==> locs[i] != locs[j]
  }

  lemma {:induction false} SumOverLocationsAppend(ms: seq<Movement>, m: Movement, sku: String, locs: seq<String>)
    requires Distinct(locs)
    ensures SumOverLocations(ms + [m], sku, locs)
         == SumOverLocations(ms, sku, locs) + (if m.sku == sku && m.location in locs then Signed(m) else 0)
  {
    if locs != [] {
      StockAtAppend(ms, m, sku, locs[0]);
      assert m.location in locs <==> m.location == locs[0] || m.location in locs[1..];
      assert m.location == locs[0] ==> m.location !in locs[1..];
      SumOverLocationsAppend(ms, m, sku, locs[1..]);
    }
  }

  /** The total of a SKU is the sum of its stock at every location it was
      moved at, each counted once. */
  lemma {:induction false} StockTotalIsSumOverLocations(ms: seq<Movement>, sku: String, locs: seq<String>)
    requires Distinct(locs)
    requires forall i :: 0 <= i < |ms| && ms[i].sku == sku ==> ms[i].location in locs
    ensures StockTotal(ms, sku) == SumOverLocations(ms, sku, locs)
  {
    if ms == [] {
      assert SumOverLocations(ms, sku, locs) == 0 by { SumOverLocationsEmpty(sku, locs); }
    } else {
      var init, m := ms[..|ms| - 1], ms[|ms| - 1];
      assert ms == init + [m];
      StockTotalIsSumOverLocations(init, sku, locs);
      StockTotalAppend(init, m, sku);
      SumOverLocationsAppend(init, m, sku, locs);
    }
  }

  lemma {:induction false} SumOverLocationsEmpty(sku: String, locs: seq<String>)
    ensures SumOverLocations([], sku, locs) == 0
  {
    if locs != [] { SumOverLocationsEmpty(sku, locs[1..]); }
  }

  /** No pair has negative stock. */
  ghost predicate NonNegative(ms: seq<Movement>) {
    forall sku, loc :: StockAt(ms, sku, loc) >= 0
  }

  /** The ledger invariant: positive quantities (the schema's `Positive()`)
      and no negative balance anywhere. */
  ghost predicate ValidLedger(ms: seq<Movement>) {
    (forall i :: 0 <= i < |ms| ==> ms[i].qty > 0) && NonNegative(ms)
  }

  /** The reference stored with a movement: the trimmed text, or none when blank. */
  function RefOf(ref: String): (r: Option<String>)
    ensures r.Some? <==> TrimSpace(ref) != []
    ensures r.Some? ==> r.value == TrimSpace(ref)
  {
    var t := TrimSpace(ref);
    if t == [] then None else Some(t)
  }

  /** What `IN` decides: the movement it appends, or the error it returns. */
  function PlanIn(items: set<String>, locations: set<String>,
                  sku: String, loc: String, qty: int, ref: String, now: int): (r: Result<Movement, StockError>)
    ensures TrimSpace(sku) == [] ==> r == Err(InvalidSKU)
    ensures TrimSpace(sku) != [] && TrimSpace(loc) == [] ==> r == Err(InvalidLocation)
    ensures TrimSpace(sku) != [] && TrimSpace(loc) != [] && qty <= 0 ==> r == Err(InvalidQuantity)
    ensures r.Ok? <==> (TrimSpace(sku) in items && TrimSpace(loc) in locations && qty > 0
                        && TrimSpace(sku) != [] && TrimSpace(loc) != [])
    ensures r.Ok? ==> r.value == Movement(TrimSpace(sku), TrimSpace(loc), In, qty, RefOf(ref), now)
  {
    var s, l := TrimSpace(sku), TrimSpace(loc);
    if s == [] then Err(InvalidSKU)
    else if l == [] then Err(InvalidLocation)
    else if qty <= 0 then Err(InvalidQuantity)
    else if s !in items then Err(ItemNotFound)
    else if l !in locations then Err(LocationNotFound)
    else Ok(Movement(s, l, In, qty, RefOf(ref), now))
  }

  /** What `OUT` decides. The balance is checked before the item and the
      location are looked up, so an OUT of an unknown item reports
      InsufficientStock. */
  function PlanOut(items: set<String>, locations: set<String>, ms: seq<Movement>,
                   sku: String, loc: String, qty: int, ref: String, now: int): (r: Result<Movement, StockError>)
    ensures TrimSpace(sku) == [] ==> r == Err(InvalidSKU)
    ensures TrimSpace(sku) != [] && TrimSpace(loc) == [] ==> r == Err(InvalidLocation)
    ensures TrimSpace(sku) != [] && TrimSpace(loc) != [] && qty <= 0 ==> r == Err(InvalidQuantity)
    ensures (TrimSpace(sku) != [] && TrimSpace(loc) != [] && qty > 0
             && StockAt(ms, TrimSpace(sku), TrimSpace(loc)) < qty) ==> r == Err(InsufficientStock)
    ensures r.Ok? <==> (TrimSpace(sku) in items && TrimSpace(loc) in locations && qty > 0
                        && TrimSpace(sku) != [] && TrimSpace(loc) != []
                        && StockAt(ms, TrimSpace(sku), TrimSpace(loc)) >= qty)
    ensures r.Ok? ==> r.value == Movement(TrimSpace(sku), TrimSpace(loc), Out, qty, RefOf(ref), now)
    ensures r.Ok? ==> StockAt(ms + [r.value], TrimSpace(sku), TrimSpace(loc))
                      == StockAt(ms, TrimSpace(sku), TrimSpace(loc)) - qty
  {
    var s, l := TrimSpace(sku), TrimSpace(loc);
    if s == [] then Err(InvalidSKU)
    else if l == [] then Err(InvalidLocation)
    else if qty <= 0 then Err(InvalidQuantity)
    else if StockAt(ms, s, l) < qty then Err(InsufficientStock)
    else if s !in items then Err(ItemNotFound)
    else if l !in locations then Err(LocationNotFound)
    else
      var m := Movement(s, l, Out, qty, RefOf(ref), now);
      StockAtAppend(ms, m, s, l);
      Ok(m)
  }

  /** `StockAtLocation`: validation of the trimmed key, then the pair's balance. */
  function StockAtLocation(ms: seq<Movement>, sku: String, loc: String): (r: Result<int, StockError>)
    ensures TrimSpace(sku) == [] ==> r == Err(InvalidSKU)
    ensures TrimSpace(sku) != [] && TrimSpace(loc) == [] ==> r == Err(InvalidLocation)
    ensures r.Ok? ==> r.value == Balance(ms, TrimSpace(sku), TrimSpace(loc))
    ensures r.Ok? <==> TrimSpace(sku) != [] && TrimSpace(loc) != []
  {
    var s, l := TrimSpace(sku), TrimSpace(loc);
    if s == [] then Err(InvalidSKU)
    else if l == [] then Err(InvalidLocation)
    else
      StockAtIsBalance(ms, s, l);
      Ok(StockAt(ms, s, l))
  }

  /** `StockBySKU`: validation of the trimmed SKU, then the total over all locations. */
  function StockBySKU(ms: seq<Movement>, sku: String): (r: Result<int, StockError>)
    ensures TrimSpace(sku) == [] <==> r == Err(InvalidSKU)
    ensures r.Ok? <==> TrimSpace(sku) != []
    ensures r.Ok? ==> forall locs: seq<String> ::
      Distinct(locs) && (forall i :: 0 <= i < |ms| && ms[i].sku == TrimSpace(sku) ==> ms[i].location in locs)
      ==> r.value == SumOverLocations(ms, TrimSpace(sku), locs)
  {
    var s := TrimSpace(sku);
    if s == [] then Err(InvalidSKU)
    else
      assert forall locs: seq<String> ::
        Distinct(locs) && (forall i :: 0 <= i < |ms| && ms[i].sku == s ==> ms[i].location in locs)
        ==> StockTotal(ms, s) == SumOverLocations(ms, s, locs) by {
        forall locs: seq<String> | Distinct(locs) && (forall i :: 0 <= i < |ms| && ms[i].sku == s ==> ms[i].location in locs)
          ensures StockTotal(ms, s) == SumOverLocations(ms, s, locs) {
          StockTotalIsSumOverLocations(ms, s, locs);
        }
      }
      Ok(StockTotal(ms, s))
  }

  /** Appending a movement with a positive quantity keeps the ledger
      invariant, provided an OUT does not exceed the stock of its pair. */
  lemma AppendKeepsValid(ms: seq<Movement>, m: Movement)
    requires ValidLedger(ms)
    requires m.qty > 0
    requires m.kind == Out ==> StockAt(ms, m.sku, m.location) >= m.qty
    ensures ValidLedger(ms + [m])
  {
    var all := ms + [m];
    forall i | 0 <= i < |all| ensures all[i].qty > 0 {
      if i < |ms| { assert all[i] == ms[i]; }
    }
    forall sku, loc ensures StockAt(all, sku, loc) >= 0 {
      StockAtAppend(ms, m, sku, loc);
    }
  }

  /** An IN keeps the ledger invariant. */
  lemma InPreservesValid(ms: seq<Movement>, m: Movement)
    requires ValidLedger(ms)
    requires m.kind == In && m.qty > 0
    ensures ValidLedger(ms + [m])
  {
    AppendKeepsValid(ms, m);
  }

  /** An OUT that PlanOut admits keeps the ledger invariant: stock is never negative. */
  lemma OutPreservesValid(items: set<String>, locations: set<String>, ms: seq<Movement>,
                          sku: String, loc: String, qty: int, ref: String, now: int)
    requires ValidLedger(ms)
    requires PlanOut(items, locations, ms, sku, loc, qty, ref, now).Ok?
    ensures ValidLedger(ms + [PlanOut(items, locations, ms, sku, loc, qty, ref, now).value])
  {
    var m := PlanOut(items, locations, ms, sku, loc, qty, ref, now).value;
    assert m == Movement(TrimSpace(sku), TrimSpace(loc), Out, qty, RefOf(ref), now);
    assert qty > 0 && StockAt(ms, TrimSpace(sku), TrimSpace(loc)) >= qty;
    AppendKeepsValid(ms, m);
  }

  /** A movement on one pair leaves every other pair's stock as it was. */
  lemma OtherPairsUnchanged(ms: seq<Movement>, m: Movement, sku: String, loc: String)
    requires m.sku != sku || m.location != loc
    ensures StockAt(ms + [m], sku, loc) == StockAt(ms, sku, loc)
  {
    StockAtAppend(ms, m, sku, loc);
  }

  /** The ledger service: the movement table, and the item and location
      tables it reads (by SKU and by code). */
  class StockService {
    var items: set<String>
    var locations: set<String>
    var movements: seq<Movement>

    ghost predicate Valid()
      reads this
    {
      ValidLedger(movements)
    }

    constructor (items: set<String>, locations: set<String>)
      ensures Valid()
      ensures this.items == items && this.locations == locations && movements == []
    {
      this.items := items;
      this.locations := locations;
      movements := [];
    }

    /** Appends one movement to the ledger. */
    method Record(m: Movement)
      requires ValidLedger(movements + [m])
      modifies this
      ensures Valid()
      ensures items == old(items) && locations == old(locations) && movements == old(movements) + [m]
    {
      movements := movements + [m];
    }

    /** `IN`: appends the planned IN movement, or returns the error and changes nothing. */
    method In(sku: String, loc: String, qty: int, ref: String, now: int) returns (err: Option<StockError>)
      requires Valid()
      modifies this
      ensures Valid()
      ensures items == old(items) && locations == old(locations)
      ensures match PlanIn(items, locations, sku, loc, qty, ref, now)
              case Ok(m) => err == None && movements == old(movements) + [m]
              case Err(e) => err == Some(e) && movements == old(movements)
    {
      var plan := PlanIn(items, locations, sku, loc, qty, ref, now);
      match plan
      case Ok(m) =>
        assert m.kind == MovementType.In && m.qty > 0;
        InPreservesValid(movements, m);
        Record(m);
        err := None;
      case Err(e) =>
        err := Some(e);
    }

    /** `OUT`: checks the balance of the pair, then appends the planned OUT movement. */
    method Out(sku: String, loc: String, qty: int, ref: String, now: int) returns (err: Option<StockError>)
      requires Valid()
      modifies this
      ensures Valid()
      ensures items == old(items) && locations == old(locations)
      ensures match PlanOut(items, locations, old(movements), sku, loc, qty, ref, now)
              case Ok(m) => err == None && movements == old(movements) + [m]
              case Err(e) => err == Some(e) && movements == old(movements)
    {
      var plan := PlanOut(items, locations, movements, sku, loc, qty, ref, now);
      match plan
      case Ok(m) =>
        OutPreservesValid(items, locations, movements, sku, loc, qty, ref, now);
        Record(m);
        err := None;
      case Err(e) =>
        err := Some(e);
    }
  }
}
