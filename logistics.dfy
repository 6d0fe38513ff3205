/** The warehouse topology of the `wms` tree: zones and bins inside a
    location, and the set of items assigned to each bin. A zone is keyed by
    (code, location) and so is a bin; every bin belongs to a zone of its own
    location. Deleting a bin or a zone is refused while it still holds items
    or bins. */
module Logistics {
  import opened Base
  import opened Text
  import Sorting

  const DefaultLimit := 100
  const MaxLimit := 500

  datatype Zone = Zone(code: String, name: String, location: String)

  /** A bin; `items` are the SKUs assigned to it, each at most once. */
  datatype Bin = Bin(code: String, name: String, location: String, zone: String, items: seq<String>)

  datatype LogisticsError =
    | InvalidLocation
    | InvalidZoneCode
    | InvalidBinCode
    | InvalidSKU
    | NotFound
    | ZoneNotFoundForLocation
    | ZoneCreateFailed
    | BinCreateFailed
    | BinNotEmpty(itemCount: nat)
    | ZoneNotEmpty(binCount: nat)
    | ItemFetchFailed

  /** The location lookup every operation starts with: the code is trimmed,
      a blank one is invalid and an unknown one is not found. */
  function GetLocation(locations: set<String>, code: String): (r: Result<String, LogisticsError>)
    ensures r == Err(InvalidLocation) <==> TrimSpace(code) == []
    ensures r == Err(NotFound) <==> TrimSpace(code) != [] && TrimSpace(code) !in locations
    ensures r.Ok? <==> TrimSpace(code) != [] && TrimSpace(code) in locations
    ensures r.Ok? ==> r.value == TrimSpace(code)
  {
    var c := TrimSpace(code);
    if c == [] then Err(InvalidLocation)
    else if c !in locations then Err(NotFound)
    else Ok(c)
  }

  // ---------------------------------------------------------------------------
  // Keys and table invariants

  predicate IsZone(z: Zone, code: String, loc: String) {
    z.code == code && z.location == loc
  }

  predicate IsBin(b: Bin, code: String, loc: String) {
    b.code == code && b.location == loc
  }

  predicate HasZone(zones: seq<Zone>, code: String, loc: String) {
    exists k :: 0 <= k < |zones| && IsZone(zones[k], code, loc)
  }

  predicate HasBin(bins: seq<Bin>, code: String, loc: String) {
    exists k :: 0 <= k < |bins| && IsBin(bins[k], code, loc)
  }

  /** Bins of the zone `code` at `loc`. */
  predicate InZone(b: Bin, code: String, loc: String) {
    b.zone == code && b.location == loc
  }

  /** The unique index on (code, location) of the zone table. */
  ghost predicate ZonesUnique(zones: seq<Zone>) {
    forall i, j :: 0 <= i < j < |zones| ==> !IsZone(zones[j], zones[i].code, zones[i].location)
  }

  /** The unique index on (code, location) of the bin table. */
  ghost predicate BinsUnique(bins: seq<Bin>) {
    forall i, j :: 0 <= i < j < |bins| ==> !IsBin(bins[j], bins[i].code, bins[i].location)
  }

  /** The required zone edge of a bin points at a zone of the bin's own location. */
  ghost predicate BinsInZones(zones: seq<Zone>, bins: seq<Bin>) {
    forall i :: 0 <= i < |bins| ==> HasZone(zones, bins[i].zone, bins[i].location)
  }

  ghost predicate Distinct(s: seq<String>) {
    forall i, j :: 0 <= i < j < |s| ==> s[i] != s[j]
  }

  ghost predicate ItemsDistinct(bins: seq<Bin>) {
    forall i :: 0 <= i < |bins| ==> Distinct(bins[i].items)
  }

  ghost predicate Consistent(zones: seq<Zone>, bins: seq<Bin>) {
    ZonesUnique(zones) && BinsUnique(bins) && BinsInZones(zones, bins) && ItemsDistinct(bins)
  }

  function FindZone(zones: seq<Zone>, code: String, loc: String): (r: Option<nat>)
    ensures r.Some? ==> r.value < |zones| && IsZone(zones[r.value], code, loc)
    ensures r.None? <==> !HasZone(zones, code, loc)
  {
    Find(zones, (z: Zone) => IsZone(z, code, loc))
  }

  function FindBin(bins: seq<Bin>, code: String, loc: String): (r: Option<nat>)
    ensures r.Some? ==> r.value < |bins| && IsBin(bins[r.value], code, loc)
    ensures r.None? <==> !HasBin(bins, code, loc)
  {
    Find(bins, (b: Bin) => IsBin(b, code, loc))
  }

  // ---------------------------------------------------------------------------
  // Item sets of a bin

  /** `AddItems` on the bin's many-to-many edge: the item joins the set. */
  function AddItem(s: seq<String>, x: String): (r: seq<String>)
    ensures forall y :: y in r <==> y in s || y == x
    ensures x in s ==> r == s
  {
    if x in s then s else s + [x]
  }

  function NotSku(x: String): String -> bool {
    (y: String) => y != x
  }

  /** `RemoveItems` on the bin's many-to-many edge: the item leaves the set. */
  function RemoveItem(s: seq<String>, x: String): (r: seq<String>)
    ensures forall y :: y in r <==> y in s && y != x
  {
    Filter(s, NotSku(x))
  }

  lemma {:induction false} AddItemDistinct(s: seq<String>, x: String)
    requires Distinct(s)
    ensures Distinct(AddItem(s, x))
  {
    if x !in s {
      var r := s + [x];
      forall i, j | 0 <= i < j < |r| ensures r[i] != r[j] {
        if j == |s| { assert r[i] == s[i]; }
      }
    }
  }

  lemma {:induction false} RemoveItemDistinct(s: seq<String>, x: String)
    requires Distinct(s)
    ensures Distinct(RemoveItem(s, x))
  {
    if s != [] {
      RemoveItemDistinct(s[1..], x);
      var rest := RemoveItem(s[1..], x);
      assert s[0] !in s[1..] by {
        forall k | 0 <= k < |s[1..]| ensures s[1..][k] != s[0] { assert s[1..][k] == s[k + 1]; }
      }
      assert s[0] !in rest;
      var r := RemoveItem(s, x);
      if s[0] != x {
        assert r == [s[0]] + rest;
        forall i, j | 0 <= i < j < |r| ensures r[i] != r[j] {
          assert r[j] == rest[j - 1];
          if i > 0 { assert r[i] == rest[i - 1]; }
        }
      } else {
        assert r == rest;
      }
    }
  }

  /** Removing an item that is not in the set leaves the set as it was. */
  lemma {:induction false} RemoveAbsent(s: seq<String>, x: String)
    requires x !in s
    ensures RemoveItem(s, x) == s
  {
    if s != [] {
      assert x !in s[1..];
      RemoveAbsent(s[1..], x);
      assert s == [s[0]] + s[1..];
    }
  }

  /** Unassigning what was just assigned restores the set, when it was not there before. */
  lemma RemoveAfterAdd(s: seq<String>, x: String)
    requires x !in s
    ensures RemoveItem(AddItem(s, x), x) == s
  {
    FilterAppend(s, [x], NotSku(x));
    RemoveAbsent(s, x);
    assert Filter([x], NotSku(x)) == [];
  }

  // ---------------------------------------------------------------------------
  // Decisions of the operations

  /** CreateZone: the zone code is checked before the location; a second zone
      with the same code in the location is refused by the unique index. */
  function PlanZone(locations: set<String>, zones: seq<Zone>, locCode: String, zoneCode: String, name: String)
    : (r: Result<Zone, LogisticsError>)
    ensures r == Err(InvalidZoneCode) <==> TrimSpace(zoneCode) == []
    ensures TrimSpace(zoneCode) != [] && GetLocation(locations, locCode).Err? ==>
      r == Err(GetLocation(locations, locCode).error)
    ensures r.Ok? <==>
      TrimSpace(zoneCode) != [] && GetLocation(locations, locCode).Ok?
      && !HasZone(zones, TrimSpace(zoneCode), GetLocation(locations, locCode).value)
    ensures r.Ok? ==>
      r.value == Zone(TrimSpace(zoneCode), TrimSpace(name), GetLocation(locations, locCode).value)
    ensures r.Err? && r != Err(InvalidZoneCode) && GetLocation(locations, locCode).Ok? ==> r == Err(ZoneCreateFailed)
  {
    var zc := TrimSpace(zoneCode);
    if zc == [] then Err(InvalidZoneCode)
    else match GetLocation(locations, locCode)
      case Err(e) => Err(e)
      case Ok(loc) =>
        if FindZone(zones, zc, loc).Some? then Err(ZoneCreateFailed)
        else Ok(Zone(zc, TrimSpace(name), loc))
  }

  /** CreateBin: bin code, then zone code, then location, then the zone must
      exist in that location; a second bin with the same code in the location
      is refused by the unique index. */
  function PlanBin(locations: set<String>, zones: seq<Zone>, bins: seq<Bin>,
                   locCode: String, zoneCode: String, binCode: String, name: String)
    : (r: Result<Bin, LogisticsError>)
    ensures r == Err(InvalidBinCode) <==> TrimSpace(binCode) == []
    ensures TrimSpace(binCode) != [] ==> (r == Err(InvalidZoneCode) <==> TrimSpace(zoneCode) == [])
    ensures TrimSpace(binCode) != [] && TrimSpace(zoneCode) != [] && GetLocation(locations, locCode).Err? ==>
      r == Err(GetLocation(locations, locCode).error)
    ensures r == Err(ZoneNotFoundForLocation) <==>
      TrimSpace(binCode) != [] && TrimSpace(zoneCode) != [] && GetLocation(locations, locCode).Ok?
      && !HasZone(zones, TrimSpace(zoneCode), GetLocation(locations, locCode).value)
    ensures r.Ok? <==>
      TrimSpace(binCode) != [] && TrimSpace(zoneCode) != [] && GetLocation(locations, locCode).Ok?
      && HasZone(zones, TrimSpace(zoneCode), GetLocation(locations, locCode).value)
      && !HasBin(bins, TrimSpace(binCode), GetLocation(locations, locCode).value)
    ensures r.Ok? ==>
      r.value == Bin(TrimSpace(binCode), TrimSpace(name), GetLocation(locations, locCode).value, TrimSpace(zoneCode), [])
  {
    var bc := TrimSpace(binCode);
    var zc := TrimSpace(zoneCode);
    if bc == [] then Err(InvalidBinCode)
    else if zc == [] then Err(InvalidZoneCode)
    else match GetLocation(locations, locCode)
      case Err(e) => Err(e)
      case Ok(loc) =>
        if FindZone(zones, zc, loc).None? then Err(ZoneNotFoundForLocation)
        else if FindBin(bins, bc, loc).Some? then Err(BinCreateFailed)
        else Ok(Bin(bc, TrimSpace(name), loc, zc, []))
  }

  /** The checks AssignItemToBin and UnassignItemFromBin share: bin code, SKU,
      location, then the bin with that code in the location. */
  function LocateBin(locations: set<String>, bins: seq<Bin>, locCode: String, binCode: String, sku: String)
    : (r: Result<nat, LogisticsError>)
    ensures r == Err(InvalidBinCode) <==> TrimSpace(binCode) == []
    ensures TrimSpace(binCode) != [] ==> (r == Err(InvalidSKU) <==> TrimSpace(sku) == [])
    ensures TrimSpace(binCode) != [] && TrimSpace(sku) != [] && GetLocation(locations, locCode).Err? ==>
      r == Err(GetLocation(locations, locCode).error)
    ensures r.Ok? <==>
      TrimSpace(binCode) != [] && TrimSpace(sku) != [] && GetLocation(locations, locCode).Ok?
      && HasBin(bins, TrimSpace(binCode), GetLocation(locations, locCode).value)
    ensures r.Ok? ==>
      r.value < |bins| && IsBin(bins[r.value], TrimSpace(binCode), GetLocation(locations, locCode).value)
    ensures r.Err? && TrimSpace(binCode) != [] && TrimSpace(sku) != [] && GetLocation(locations, locCode).Ok? ==>
      r == Err(NotFound)
  {
    var bc := TrimSpace(binCode);
    if bc == [] then Err(InvalidBinCode)
    else if TrimSpace(sku) == [] then Err(InvalidSKU)
    else match GetLocation(locations, locCode)
      case Err(e) => Err(e)
      case Ok(loc) =>
        match FindBin(bins, bc, loc)
        case None => Err(NotFound)
        case Some(k) => Ok(k)
  }

  /** What the item query (`Item.Query().Where(SKU).Only`) can report. */
  datatype ItemLookup = ItemFound | ItemMissing | ItemQueryFailed

  /** The item query over the item table; store faults do not arise in the model. */
  function Lookup(items: set<String>, sku: String): (r: ItemLookup)
    ensures r == ItemFound <==> sku in items
    ensures r != ItemQueryFailed
  {
    if sku in items then ItemFound else ItemMissing
  }

  /** What an operation does after the item query. `NilItem` is the as-written
      path of UnassignItemFromBin on a failed query: the error is built and
      dropped, and `RemoveItems` is called with the nil item. */
  datatype ItemStep = Proceed | Stop(error: LogisticsError) | NilItem

  /** The item step of AssignItemToBin, and the intended one of UnassignItemFromBin:
      a missing item is not found, a failed query is returned as an error. */
  function ItemCheck(lookup: ItemLookup): (r: ItemStep)
    ensures r == Proceed <==> lookup == ItemFound
    ensures lookup == ItemMissing <==> r == Stop(NotFound)
    ensures lookup == ItemQueryFailed <==> r == Stop(ItemFetchFailed)
  {
    match lookup
    case ItemFound => Proceed
    case ItemMissing => Stop(NotFound)
    case ItemQueryFailed => Stop(ItemFetchFailed)
  }

  /** The item step of UnassignItemFromBin as written: a failed query falls
      through to `RemoveItems` with no item. */
  function UnassignItemCheckAsWritten(lookup: ItemLookup): (r: ItemStep)
    ensures lookup != ItemQueryFailed ==> r == ItemCheck(lookup)
    ensures lookup == ItemQueryFailed ==> r == NilItem
  {
    match lookup
    case ItemFound => Proceed
    case ItemMissing => Stop(NotFound)
    case ItemQueryFailed => NilItem
  }

  /** AssignItemToBin (and UnassignItemFromBin as intended): the bin to change. */
  function PlanBinItem(locations: set<String>, bins: seq<Bin>, locCode: String, binCode: String, sku: String,
                       lookup: ItemLookup)
    : (r: Result<nat, LogisticsError>)
    ensures LocateBin(locations, bins, locCode, binCode, sku).Err? ==>
      r == Err(LocateBin(locations, bins, locCode, binCode, sku).error)
    ensures r.Ok? <==> LocateBin(locations, bins, locCode, binCode, sku).Ok? && lookup == ItemFound
    ensures r.Ok? ==> r == LocateBin(locations, bins, locCode, binCode, sku)
    ensures LocateBin(locations, bins, locCode, binCode, sku).Ok? && lookup == ItemQueryFailed ==>
      r == Err(ItemFetchFailed)
  {
    match LocateBin(locations, bins, locCode, binCode, sku)
    case Err(e) => Err(e)
    case Ok(k) =>
      match ItemCheck(lookup)
      case Proceed => Ok(k)
      case Stop(e) => Err(e)
      case NilItem => Err(ItemFetchFailed)
  }

  /** The outcome of UnassignItemFromBin as written. */
  datatype UnassignOutcome = Removed(bin: nat) | Refused(error: LogisticsError) | NilDereference

  function UnassignAsWritten(locations: set<String>, bins: seq<Bin>, locCode: String, binCode: String, sku: String,
                             lookup: ItemLookup)
    : (r: UnassignOutcome)
    ensures r.NilDereference? <==>
      LocateBin(locations, bins, locCode, binCode, sku).Ok? && lookup == ItemQueryFailed
  {
    match LocateBin(locations, bins, locCode, binCode, sku)
    case Err(e) => Refused(e)
    case Ok(k) =>
      match UnassignItemCheckAsWritten(lookup)
      case Proceed => Removed(k)
      case Stop(e) => Refused(e)
      case NilItem => NilDereference
  }

  /** The as-written unassign and the intended one agree except on a failed
      item query, where the former dereferences the nil item and the latter
      reports the failure. */
  lemma UnassignAsWrittenAgrees(locations: set<String>, bins: seq<Bin>, locCode: String, binCode: String,
                                sku: String, lookup: ItemLookup)
    ensures lookup != ItemQueryFailed ==>
      match UnassignAsWritten(locations, bins, locCode, binCode, sku, lookup)
      case Removed(k) => PlanBinItem(locations, bins, locCode, binCode, sku, lookup) == Ok(k)
      case Refused(e) => PlanBinItem(locations, bins, locCode, binCode, sku, lookup) == Err(e)
      case NilDereference => false
    ensures UnassignAsWritten(locations, bins, locCode, binCode, sku, lookup).NilDereference? ==>
      PlanBinItem(locations, bins, locCode, binCode, sku, lookup) == Err(ItemFetchFailed)
  {
  }

  lemma TrimLetter(c: char)
    requires 'A' <= c <= 'Z'
    ensures TrimSpace([c]) == [c]
  {
    TrimSpaceOfTrimmed([c]);
  }

  /** A concrete input on which the as-written unassign reaches `RemoveItems`
      with no item: bin "B" exists at location "L" and the item query fails. */
  lemma UnassignNilItemWitness()
    ensures UnassignAsWritten({"L"}, [Bin("B", "", "L", "Z", [])], "L", "B", "S", ItemQueryFailed) == NilDereference
    ensures PlanBinItem({"L"}, [Bin("B", "", "L", "Z", [])], "L", "B", "S", ItemQueryFailed) == Err(ItemFetchFailed)
  {
    TrimLetter('L');
    TrimLetter('B');
    TrimLetter('S');
    assert IsBin(Bin("B", "", "L", "Z", []), "B", "L");
  }

  /** DeleteBin: refused while the bin still holds items, naming their count. */
  function PlanDeleteBin(locations: set<String>, bins: seq<Bin>, locCode: String, binCode: String)
    : (r: Result<nat, LogisticsError>)
    ensures r == Err(InvalidBinCode) <==> TrimSpace(binCode) == []
    ensures TrimSpace(binCode) != [] && GetLocation(locations, locCode).Err? ==>
      r == Err(GetLocation(locations, locCode).error)
    ensures TrimSpace(binCode) != [] && GetLocation(locations, locCode).Ok? ==>
      (r == Err(NotFound) <==> !HasBin(bins, TrimSpace(binCode), GetLocation(locations, locCode).value))
    ensures r.Ok? ==>
      r.value < |bins| && IsBin(bins[r.value], TrimSpace(binCode), GetLocation(locations, locCode).value)
      && bins[r.value].items == []
    ensures r.Err? && r.error.BinNotEmpty? ==>
      exists k :: 0 <= k < |bins| && IsBin(bins[k], TrimSpace(binCode), GetLocation(locations, locCode).value)
        && r.error.itemCount == |bins[k].items| > 0
    ensures (TrimSpace(binCode) != [] && GetLocation(locations, locCode).Ok?
             && HasBin(bins, TrimSpace(binCode), GetLocation(locations, locCode).value)) ==>
      var k := FindBin(bins, TrimSpace(binCode), GetLocation(locations, locCode).value).value;
      && (r.Ok? <==> bins[k].items == [])
      && (bins[k].items != [] ==> r == Err(BinNotEmpty(|bins[k].items|)))
  {
    var bc := TrimSpace(binCode);
    if bc == [] then Err(InvalidBinCode)
    else match GetLocation(locations, locCode)
      case Err(e) => Err(e)
      case Ok(loc) =>
        match FindBin(bins, bc, loc)
        case None => Err(NotFound)
        case Some(k) =>
          if |bins[k].items| > 0 then
            assert IsBin(bins[k], bc, loc);
            Err(BinNotEmpty(|bins[k].items|))
          else Ok(k)
  }

  /** DeleteZone: refused while bins remain in the zone, naming their count. */
  function PlanDeleteZone(locations: set<String>, zones: seq<Zone>, bins: seq<Bin>, locCode: String, zoneCode: String)
    : (r: Result<nat, LogisticsError>)
    ensures r == Err(InvalidZoneCode) <==> TrimSpace(zoneCode) == []
    ensures TrimSpace(zoneCode) != [] && GetLocation(locations, locCode).Err? ==>
      r == Err(GetLocation(locations, locCode).error)
    ensures TrimSpace(zoneCode) != [] && GetLocation(locations, locCode).Ok? ==>
      (r == Err(NotFound) <==> !HasZone(zones, TrimSpace(zoneCode), GetLocation(locations, locCode).value))
    ensures r.Ok? ==>
      r.value < |zones| && IsZone(zones[r.value], TrimSpace(zoneCode), GetLocation(locations, locCode).value)
      && forall i :: 0 <= i < |bins| ==> !InZone(bins[i], zones[r.value].code, zones[r.value].location)
    ensures r.Err? && r.error.ZoneNotEmpty? ==>
      GetLocation(locations, locCode).Ok? && r.error.binCount > 0
      && r.error.binCount == BinsInZoneCount(bins, TrimSpace(zoneCode), GetLocation(locations, locCode).value)
    ensures (TrimSpace(zoneCode) != [] && GetLocation(locations, locCode).Ok?
             && HasZone(zones, TrimSpace(zoneCode), GetLocation(locations, locCode).value)) ==>
      var n := BinsInZoneCount(bins, TrimSpace(zoneCode), GetLocation(locations, locCode).value);
      && (r.Ok? <==> n == 0)
      && (n > 0 ==> r == Err(ZoneNotEmpty(n)))
  {
    var zc := TrimSpace(zoneCode);
    if zc == [] then Err(InvalidZoneCode)
    else match GetLocation(locations, locCode)
      case Err(e) => Err(e)
      case Ok(loc) =>
        match FindZone(zones, zc, loc)
        case None => Err(NotFound)
        case Some(k) =>
          var n := BinsInZoneCount(bins, zc, loc);
          if n > 0 then Err(ZoneNotEmpty(n)) else Ok(k)
  }

  /** `z.QueryBins().Count()`: the bins whose zone is the zone `code` at `loc`. */
  function BinsInZoneCount(bins: seq<Bin>, code: String, loc: String): (n: nat)
    ensures n <= |bins|
    ensures n == 0 <==> forall i :: 0 <= i < |bins| ==> !InZone(bins[i], code, loc)
  {
    Count(bins, (b: Bin) => InZone(b, code, loc))
  }

  /** The limit rule of ListZones, ListBins and ItemsInBin. */
  function PageSize(limit: int): (n: nat)
    ensures 0 < n <= MaxLimit
    ensures 0 < limit <= MaxLimit ==> n == limit
    ensures !(0 < limit <= MaxLimit) ==> n == DefaultLimit
  {
    ClampLimit(limit, MaxLimit, DefaultLimit)
  }

  function SkuKey(s: String): String { s }

  /** ItemsInBin: bin code, then location, then the bin; its SKUs ascending,
      cut to the page size. */
  function BinItems(locations: set<String>, bins: seq<Bin>, locCode: String, binCode: String, limit: int)
    : (r: Result<seq<String>, LogisticsError>)
    ensures TrimSpace(binCode) == [] <==> r == Err(InvalidBinCode)
    ensures TrimSpace(binCode) != [] && GetLocation(locations, locCode).Err? ==>
      r == Err(GetLocation(locations, locCode).error)
    ensures r.Ok? <==>
      TrimSpace(binCode) != [] && GetLocation(locations, locCode).Ok?
      && HasBin(bins, TrimSpace(binCode), GetLocation(locations, locCode).value)
  {
    var bc := TrimSpace(binCode);
    if bc == [] then Err(InvalidBinCode)
    else match GetLocation(locations, locCode)
      case Err(e) => Err(e)
      case Ok(loc) =>
        match FindBin(bins, bc, loc)
        case None => Err(NotFound)
        case Some(k) => Ok(Take(Sorting.SortBy(bins[k].items, SkuKey), PageSize(limit)))
  }

  /** The page ItemsInBin returns is in ascending SKU order, within the page
      size, drawn from the bin's items, and all of them when they fit. */
  lemma BinItemsPage(locations: set<String>, bins: seq<Bin>, locCode: String, binCode: String, limit: int)
    requires BinItems(locations, bins, locCode, binCode, limit).Ok?
    ensures var page := BinItems(locations, bins, locCode, binCode, limit).value;
      Sorting.SortedBy(page, SkuKey) && |page| <= PageSize(limit)
      && exists k :: 0 <= k < |bins| && IsBin(bins[k], TrimSpace(binCode), TrimSpace(locCode))
           && (forall s :: s in page ==> s in bins[k].items)
           && (|bins[k].items| <= PageSize(limit) ==> multiset(page) == multiset(bins[k].items))
  {
    var k := FindBin(bins, TrimSpace(binCode), TrimSpace(locCode)).value;
    Sorting.SortedPage(bins[k].items, SkuKey, PageSize(limit));
  }

  /** The page holds the bin's lowest SKUs: one left off sorts no lower than
      any one on it. */
  lemma BinItemsLowest(locations: set<String>, bins: seq<Bin>, locCode: String, binCode: String, limit: int)
    requires BinItems(locations, bins, locCode, binCode, limit).Ok?
    ensures var page := BinItems(locations, bins, locCode, binCode, limit).value;
      exists k :: 0 <= k < |bins| && IsBin(bins[k], TrimSpace(binCode), TrimSpace(locCode))
           && forall s, t :: s in bins[k].items && s !in page && t in page ==> Sorting.LessEq(t, s)
  {
    var k := FindBin(bins, TrimSpace(binCode), TrimSpace(locCode)).value;
    var page := BinItems(locations, bins, locCode, binCode, limit).value;
    forall s, t | s in bins[k].items && s !in page && t in page ensures Sorting.LessEq(t, s) {
      Sorting.PageLeast(bins[k].items, SkuKey, PageSize(limit), s, t);
    }
  }

  // ---------------------------------------------------------------------------
  // The invariant is kept by every change

  lemma CreateZoneKeeps(zones: seq<Zone>, bins: seq<Bin>, z: Zone)
    requires Consistent(zones, bins)
    requires !HasZone(zones, z.code, z.location)
    ensures Consistent(zones + [z], bins)
  {
    var zs := zones + [z];
    forall i, j | 0 <= i < j < |zs| ensures !IsZone(zs[j], zs[i].code, zs[i].location) {
      if j == |zones| {
        assert zs[i] == zones[i];
        assert !IsZone(zones[i], z.code, z.location);
      }
    }
    forall i | 0 <= i < |bins| ensures HasZone(zs, bins[i].zone, bins[i].location) {
      var k :| 0 <= k < |zones| && IsZone(zones[k], bins[i].zone, bins[i].location);
      assert zs[k] == zones[k];
    }
  }

  lemma CreateBinKeeps(zones: seq<Zone>, bins: seq<Bin>, b: Bin)
    requires Consistent(zones, bins)
    requires !HasBin(bins, b.code, b.location)
    requires HasZone(zones, b.zone, b.location)
    requires b.items == []
    ensures Consistent(zones, bins + [b])
  {
    var bs := bins + [b];
    forall i, j | 0 <= i < j < |bs| ensures !IsBin(bs[j], bs[i].code, bs[i].location) {
      if j == |bins| {
        assert bs[i] == bins[i];
        assert !IsBin(bins[i], b.code, b.location);
      }
    }
  }

  /** Changing only the item set of one bin keeps the keys and zones of all bins. */
  lemma SetItemsKeeps(zones: seq<Zone>, bins: seq<Bin>, k: nat, items: seq<String>)
    requires Consistent(zones, bins)
    requires k < |bins| && Distinct(items)
    ensures Consistent(zones, bins[k := bins[k].(items := items)])
  {
  }

  lemma DeleteBinKeeps(zones: seq<Zone>, bins: seq<Bin>, k: nat)
    requires Consistent(zones, bins)
    requires k < |bins|
    ensures Consistent(zones, RemoveAt(bins, k))
  {
    var bs := RemoveAt(bins, k);
    forall i, j | 0 <= i < j < |bs| ensures !IsBin(bs[j], bs[i].code, bs[i].location) {
      var i' := if i < k then i else i + 1;
      var j' := if j < k then j else j + 1;
      assert bs[i] == bins[i'] && bs[j] == bins[j'];
    }
    forall i | 0 <= i < |bs| ensures HasZone(zones, bs[i].zone, bs[i].location) {
      assert bs[i] == bins[if i < k then i else i + 1];
    }
    forall i | 0 <= i < |bs| ensures Distinct(bs[i].items) {
      assert bs[i] == bins[if i < k then i else i + 1];
    }
  }

  /** Deleting a zone that no bin is in keeps every bin's zone in place. */
  lemma DeleteZoneKeeps(zones: seq<Zone>, bins: seq<Bin>, k: nat)
    requires Consistent(zones, bins)
    requires k < |zones|
    requires forall i :: 0 <= i < |bins| ==> !InZone(bins[i], zones[k].code, zones[k].location)
    ensures Consistent(RemoveAt(zones, k), bins)
  {
    var zs := RemoveAt(zones, k);
    forall i, j | 0 <= i < j < |zs| ensures !IsZone(zs[j], zs[i].code, zs[i].location) {
      var i' := if i < k then i else i + 1;
      var j' := if j < k then j else j + 1;
      assert zs[i] == zones[i'] && zs[j] == zones[j'];
    }
    forall i | 0 <= i < |bins| ensures HasZone(zs, bins[i].zone, bins[i].location) {
      var m :| 0 <= m < |zones| && IsZone(zones[m], bins[i].zone, bins[i].location);
      assert m != k by {
        assert !InZone(bins[i], zones[k].code, zones[k].location);
      }
      if m < k {
        assert zs[m] == zones[m];
      } else {
        assert zs[m - 1] == zones[m];
      }
    }
  }

  /** After a bin is deleted, no bin with its code is left in its location. */
  lemma DeleteBinRemovesKey(bins: seq<Bin>, k: nat)
    requires BinsUnique(bins) && k < |bins|
    ensures !HasBin(RemoveAt(bins, k), bins[k].code, bins[k].location)
  {
    var bs := RemoveAt(bins, k);
    forall i | 0 <= i < |bs| ensures !IsBin(bs[i], bins[k].code, bins[k].location) {
      if i < k {
        assert bs[i] == bins[i];
      } else {
        assert bs[i] == bins[i + 1];
      }
    }
  }

  /** The zone and bin tables of one warehouse database, over the location
      and item tables the other services maintain. */
  function ZoneAt(loc: String): Zone -> bool {
    (z: Zone) => z.location == loc
  }

  function BinAt(loc: String): Bin -> bool {
    (b: Bin) => b.location == loc
  }

  function BinInZone(zone: String): Bin -> bool {
    (b: Bin) => b.zone == zone
  }

  /** ListZones' page: the location's zones in table order, cut at the
      page size. */
  function ZonePage(zones: seq<Zone>, loc: String, limit: int): seq<Zone> {
    Take(Filter(zones, ZoneAt(loc)), PageSize(limit))
  }

  /** The bins ListBins selects: those at the location and, when a zone code
      is given, in that zone, in table order. */
  function BinsListed(bins: seq<Bin>, loc: String, zone: String): seq<Bin> {
    if zone == [] then Filter(bins, BinAt(loc)) else Filter(Filter(bins, BinAt(loc)), BinInZone(zone))
  }

  /** ListBins' page: the selected bins cut at the page size. */
  function BinPage(bins: seq<Bin>, loc: String, zone: String, limit: int): seq<Bin> {
    Take(BinsListed(bins, loc, zone), PageSize(limit))
  }

  /** ListBins' page is within the page size, holds only bins of the
      location (and of the zone, when one is given), and all of them when
      they fit. */
  lemma BinPageSpec(bins: seq<Bin>, loc: String, zone: String, limit: int)
    ensures |BinPage(bins, loc, zone, limit)| <= PageSize(limit)
    ensures forall b :: b in BinPage(bins, loc, zone, limit) ==>
      b in bins && b.location == loc && (zone == [] || b.zone == zone)
    ensures |BinsListed(bins, loc, zone)| <= PageSize(limit) ==>
      forall b :: (b in bins && b.location == loc && (zone == [] || b.zone == zone)) ==> b in BinPage(bins, loc, zone, limit)
  {
    var listed := BinsListed(bins, loc, zone);
    assert forall b :: b in BinPage(bins, loc, zone, limit) ==> b in listed;
  }

  class LogisticsService {
    const locations: set<String>
    const items: set<String>
    var zones: seq<Zone>
    var bins: seq<Bin>

    ghost predicate Valid()
      reads this
    {
      Consistent(zones, bins)
    }

    constructor(locations: set<String>, items: set<String>)
      ensures Valid()
      ensures this.locations == locations && this.items == items
      ensures zones == [] && bins == []
    {
      this.locations := locations;
      this.items := items;
      zones := [];
      bins := [];
    }

    method CreateZone(locCode: String, zoneCode: String, name: String) returns (err: Option<LogisticsError>)
      requires Valid()
      modifies this
      ensures Valid()
      ensures bins == old(bins)
      ensures match PlanZone(locations, old(zones), locCode, zoneCode, name)
        case Ok(z) => err == None && zones == old(zones) + [z]
        case Err(e) => err == Some(e) && zones == old(zones)
    {
      match PlanZone(locations, zones, locCode, zoneCode, name)
      case Err(e) =>
        err := Some(e);
      case Ok(z) =>
        CreateZoneKeeps(zones, bins, z);
        zones := zones + [z];
        err := None;
    }

    method ListZones(locCode: String, limit: int) returns (r: Result<seq<Zone>, LogisticsError>)
      ensures GetLocation(locations, locCode).Err? ==> r == Err(GetLocation(locations, locCode).error)
      ensures GetLocation(locations, locCode).Ok? ==> r == Ok(ZonePage(zones, TrimSpace(locCode), limit))
      ensures r.Ok? ==> |r.value| <= PageSize(limit)
      ensures r.Ok? ==> forall z :: z in r.value ==> z in zones && z.location == TrimSpace(locCode)
      ensures r.Ok? && |Filter(zones, ZoneAt(TrimSpace(locCode)))| <= PageSize(limit) ==>
        forall z :: z in zones && z.location == TrimSpace(locCode) ==> z in r.value
    {
      var n := PageSize(limit);
      match GetLocation(locations, locCode)
      case Err(e) =>
        r := Err(e);
      case Ok(loc) =>
        var here := Filter(zones, ZoneAt(loc));
        r := Ok(Take(here, n));
        assert forall z :: z in r.value ==> z in here;
    }

    method CreateBin(locCode: String, zoneCode: String, binCode: String, name: String)
      returns (err: Option<LogisticsError>)
      requires Valid()
      modifies this
      ensures Valid()
      ensures zones == old(zones)
      ensures match PlanBin(locations, old(zones), old(bins), locCode, zoneCode, binCode, name)
        case Ok(b) => err == None && bins == old(bins) + [b]
        case Err(e) => err == Some(e) && bins == old(bins)
    {
      match PlanBin(locations, zones, bins, locCode, zoneCode, binCode, name)
      case Err(e) =>
        err := Some(e);
      case Ok(b) =>
        CreateBinKeeps(zones, bins, b);
        bins := bins + [b];
        err := None;
    }

    method ListBins(locCode: String, zoneCode: String, limit: int) returns (r: Result<seq<Bin>, LogisticsError>)
      ensures GetLocation(locations, locCode).Err? ==> r == Err(GetLocation(locations, locCode).error)
      ensures GetLocation(locations, locCode).Ok? ==>
        r == Ok(BinPage(bins, TrimSpace(locCode), TrimSpace(zoneCode), limit))
      ensures r.Ok? ==> |r.value| <= PageSize(limit)
      ensures r.Ok? ==> forall b :: b in r.value ==>
        b in bins && b.location == TrimSpace(locCode) && (TrimSpace(zoneCode) == [] || b.zone == TrimSpace(zoneCode))
      ensures r.Ok? && |BinsListed(bins, TrimSpace(locCode), TrimSpace(zoneCode))| <= PageSize(limit) ==>
        forall b :: (b in bins && b.location == TrimSpace(locCode)
          && (TrimSpace(zoneCode) == [] || b.zone == TrimSpace(zoneCode))) ==> b in r.value
    {
      var n := PageSize(limit);
      match GetLocation(locations, locCode)
      case Err(e) =>
        r := Err(e);
      case Ok(loc) =>
        var zc := TrimSpace(zoneCode);
        var here := Filter(bins, BinAt(loc));
        if zc != [] {
          here := Filter(here, BinInZone(zc));
        }
        assert here == BinsListed(bins, loc, zc);
        r := Ok(Take(here, n));
        BinPageSpec(bins, loc, zc, limit);
    }

    /** Replaces the item set of one bin; the bin keeps its identity. */
    method SetBinItems(k: nat, its: seq<String>)
      requires Valid() && k < |bins| && Distinct(its)
      modifies this
      ensures Valid()
      ensures zones == old(zones) && bins == old(bins)[k := old(bins)[k].(items := its)]
    {
      SetItemsKeeps(zones, bins, k, its);
      bins := bins[k := bins[k].(items := its)];
    }

    method AssignItemToBin(locCode: String, binCode: String, sku: String) returns (err: Option<LogisticsError>)
      requires Valid()
      modifies this
      ensures Valid()
      ensures zones == old(zones)
      ensures match PlanBinItem(locations, old(bins), locCode, binCode, sku, Lookup(items, TrimSpace(sku)))
        case Ok(k) => err == None && k < |old(bins)|
          && bins == old(bins)[k := old(bins)[k].(items := AddItem(old(bins)[k].items, TrimSpace(sku)))]
        case Err(e) => err == Some(e) && bins == old(bins)
    {
      match PlanBinItem(locations, bins, locCode, binCode, sku, Lookup(items, TrimSpace(sku)))
      case Err(e) =>
        err := Some(e);
      case Ok(k) =>
        AddItemDistinct(bins[k].items, TrimSpace(sku));
        SetBinItems(k, AddItem(bins[k].items, TrimSpace(sku)));
        err := None;
    }

    method ItemsInBin(locCode: String, binCode: String, limit: int) returns (r: Result<seq<String>, LogisticsError>)
      ensures r == BinItems(locations, bins, locCode, binCode, limit)
    {
      var bc := TrimSpace(binCode);
      if bc == [] {
        return Err(InvalidBinCode);
      }
      var n := PageSize(limit);
      match GetLocation(locations, locCode)
      case Err(e) =>
        r := Err(e);
      case Ok(loc) =>
        match FindBin(bins, bc, loc)
        case None =>
          r := Err(NotFound);
        case Some(k) =>
          r := Ok(Take(Sorting.SortBy(bins[k].items, SkuKey), n));
    }

    method UnassignItemFromBin(locCode: String, binCode: String, sku: String) returns (err: Option<LogisticsError>)
      requires Valid()
      modifies this
      ensures Valid()
      ensures zones == old(zones)
      ensures match PlanBinItem(locations, old(bins), locCode, binCode, sku, Lookup(items, TrimSpace(sku)))
        case Ok(k) => err == None && k < |old(bins)|
          && bins == old(bins)[k := old(bins)[k].(items := RemoveItem(old(bins)[k].items, TrimSpace(sku)))]
        case Err(e) => err == Some(e) && bins == old(bins)
    {
      match PlanBinItem(locations, bins, locCode, binCode, sku, Lookup(items, TrimSpace(sku)))
      case Err(e) =>
        err := Some(e);
      case Ok(k) =>
        RemoveItemDistinct(bins[k].items, TrimSpace(sku));
        SetBinItems(k, RemoveItem(bins[k].items, TrimSpace(sku)));
        err := None;
    }

    method DeleteBin(locCode: String, binCode: String) returns (err: Option<LogisticsError>)
      requires Valid()
      modifies this
      ensures Valid()
      ensures zones == old(zones)
      ensures match PlanDeleteBin(locations, old(bins), locCode, binCode)
        case Ok(k) => err == None && bins == RemoveAt(old(bins), k)
        case Err(e) => err == Some(e) && bins == old(bins)
    {
      match PlanDeleteBin(locations, bins, locCode, binCode)
      case Err(e) =>
        err := Some(e);
      case Ok(k) =>
        DeleteBinKeeps(zones, bins, k);
        bins := RemoveAt(bins, k);
        err := None;
    }

    method DeleteZone(locCode: String, zoneCode: String) returns (err: Option<LogisticsError>)
      requires Valid()
      modifies this
      ensures Valid()
      ensures bins == old(bins)
      ensures match PlanDeleteZone(locations, old(zones), old(bins), locCode, zoneCode)
        case Ok(k) => err == None && zones == RemoveAt(old(zones), k)
        case Err(e) => err == Some(e) && zones == old(zones)
    {
      match PlanDeleteZone(locations, zones, bins, locCode, zoneCode)
      case Err(e) =>
        err := Some(e);
      case Ok(k) =>
        DeleteZoneKeeps(zones, bins, k);
        zones := RemoveAt(zones, k);
        err := None;
    }
  }

  /** Assigning an item to a bin and unassigning it again leaves the bin tables
      as they were, when the bin did not hold the item before. */
  lemma AssignThenUnassign(bins: seq<Bin>, k: nat, sku: String)
    requires k < |bins| && sku !in bins[k].items
    ensures var added := bins[k := bins[k].(items := AddItem(bins[k].items, sku))];
            added[k := added[k].(items := RemoveItem(added[k].items, sku))] == bins
  {
    RemoveAfterAdd(bins[k].items, sku);
  }
}
