/** Warehouses of the `wms` tree and the links that put a location into a
    warehouse. The link table's unique index on the location makes every
    location belong to at most one warehouse. */
module Multiwarehouse {
  import opened Base
  import opened Text
  import Sorting

  datatype Warehouse = Warehouse(code: String, name: String)

  /** A row of the link table: warehouse code and location code. */
  datatype Link = Link(warehouse: String, location: String)

  datatype WarehouseError =
    | InvalidWarehouseCode
    | InvalidLocationCode
    | WarehouseExists
    | WarehouseNotFound
    | LocationNotFound
    | LocationAlreadyAssigned

  predicate HasWarehouse(ws: seq<Warehouse>, code: String) {
    exists k :: 0 <= k < |ws| && ws[k].code == code
  }

  predicate IsAssigned(links: seq<Link>, loc: String) {
    exists k :: 0 <= k < |links| && links[k].location == loc
  }

  ghost predicate CodesUnique(ws: seq<Warehouse>) {
    forall i, j :: 0 <= i < j < |ws| ==> ws[i].code != ws[j].code
  }

  /** The unique index on the link's location. */
  ghost predicate OneWarehousePerLocation(links: seq<Link>) {
    forall i, j :: 0 <= i < j < |links| ==> links[i].location != links[j].location
  }

  ghost predicate LinksResolve(ws: seq<Warehouse>, locations: set<String>, links: seq<Link>) {
    forall i :: 0 <= i < |links| ==> HasWarehouse(ws, links[i].warehouse) && links[i].location in locations
  }

  ghost predicate Consistent(ws: seq<Warehouse>, locations: set<String>, links: seq<Link>) {
    CodesUnique(ws) && OneWarehousePerLocation(links) && LinksResolve(ws, locations, links)
  }

  /** CreateWarehouse: a blank code is invalid, an existing one refused. */
  function PlanWarehouse(ws: seq<Warehouse>, code: String, name: String): (r: Result<Warehouse, WarehouseError>)
    ensures r == Err(InvalidWarehouseCode) <==> TrimSpace(code) == []
    ensures r == Err(WarehouseExists) <==> TrimSpace(code) != [] && HasWarehouse(ws, TrimSpace(code))
    ensures r.Ok? <==> TrimSpace(code) != [] && !HasWarehouse(ws, TrimSpace(code))
    ensures r.Ok? ==> r.value == Warehouse(TrimSpace(code), TrimSpace(name)) && !HasWarehouse(ws, r.value.code)
  {
    var c := TrimSpace(code);
    if c == [] then Err(InvalidWarehouseCode)
    else match Find(ws, (w: Warehouse) => w.code == c)
      case Some(_) => Err(WarehouseExists)
      case None => Ok(Warehouse(c, TrimSpace(name)))
  }

  /** AssignLocation: both codes, then the warehouse, the location, and
      whether the location is linked to any warehouse already. */
  function PlanAssign(ws: seq<Warehouse>, locations: set<String>, links: seq<Link>, whCode: String, locCode: String)
    : (r: Result<Link, WarehouseError>)
    ensures r == Err(InvalidWarehouseCode) <==> TrimSpace(whCode) == []
    ensures TrimSpace(whCode) != [] ==> (r == Err(InvalidLocationCode) <==> TrimSpace(locCode) == [])
    ensures TrimSpace(whCode) != [] && TrimSpace(locCode) != [] ==>
      (r == Err(WarehouseNotFound) <==> !HasWarehouse(ws, TrimSpace(whCode)))
    ensures TrimSpace(whCode) != [] && TrimSpace(locCode) != [] && HasWarehouse(ws, TrimSpace(whCode)) ==>
      (r == Err(LocationNotFound) <==> TrimSpace(locCode) !in locations)
    ensures r == Err(LocationAlreadyAssigned) ==> IsAssigned(links, TrimSpace(locCode))
    ensures r.Ok? <==>
      TrimSpace(whCode) != [] && TrimSpace(locCode) != [] && HasWarehouse(ws, TrimSpace(whCode))
      && TrimSpace(locCode) in locations && !IsAssigned(links, TrimSpace(locCode))
    ensures r.Ok? ==> r.value == Link(TrimSpace(whCode), TrimSpace(locCode))
  {
    var w := TrimSpace(whCode);
    var l := TrimSpace(locCode);
    if w == [] then Err(InvalidWarehouseCode)
    else if l == [] then Err(InvalidLocationCode)
    else if Find(ws, (x: Warehouse) => x.code == w).None? then Err(WarehouseNotFound)
    else if l !in locations then Err(LocationNotFound)
    else if Find(links, (k: Link) => k.location == l).Some? then Err(LocationAlreadyAssigned)
    else Ok(Link(w, l))
  }

  /** The links of one warehouse, in table order. */
  function LinksOf(links: seq<Link>, wh: String): (r: seq<Link>)
    ensures forall k :: k in r <==> k in links && k.warehouse == wh
  {
    Filter(links, (k: Link) => k.warehouse == wh)
  }

  /** The location of each link, in order. */
  function Locations(links: seq<Link>): (locs: seq<String>)
    ensures |locs| == |links|
    ensures forall i :: 0 <= i < |links| ==> locs[i] == links[i].location
  {
    seq(|links|, i requires 0 <= i < |links| => links[i].location)
  }

  /** The location codes of a warehouse's links, in table order. The link's
      location edge is required, so every link carries one. */
  function LocationsOf(links: seq<Link>, wh: String): (locs: seq<String>)
    ensures |locs| == |LinksOf(links, wh)|
    ensures forall l :: l in locs <==> Link(wh, l) in links
  {
    var ls := LinksOf(links, wh);
    var locs := Locations(ls);
    assert forall l :: l in locs ==> Link(wh, l) in links by {
      forall l | l in locs ensures Link(wh, l) in links {
        var i :| 0 <= i < |locs| && locs[i] == l;
        assert ls[i] in ls;
      }
    }
    assert forall l :: Link(wh, l) in links ==> l in locs by {
      forall l | Link(wh, l) in links ensures l in locs {
        var i :| 0 <= i < |ls| && ls[i] == Link(wh, l);
        assert locs[i] == l;
      }
    }
    locs
  }

  /** A location just assigned shows up among its warehouse's links. */
  lemma AssignedIsListed(links: seq<Link>, link: Link)
    ensures link in LinksOf(links + [link], link.warehouse)
    ensures LinksOf(links + [link], link.warehouse) == LinksOf(links, link.warehouse) + [link]
  {
    FilterAppend(links, [link], (k: Link) => k.warehouse == link.warehouse);
    assert Filter([link], (k: Link) => k.warehouse == link.warehouse) == [link];
  }

  lemma CreateKeeps(ws: seq<Warehouse>, locations: set<String>, links: seq<Link>, w: Warehouse)
    requires Consistent(ws, locations, links)
    requires !HasWarehouse(ws, w.code)
    ensures Consistent(ws + [w], locations, links)
  {
    var all := ws + [w];
    forall i, j | 0 <= i < j < |all| ensures all[i].code != all[j].code {
      assert all[i] == ws[i];
      if j < |ws| { assert all[j] == ws[j]; }
    }
    forall i | 0 <= i < |links| ensures HasWarehouse(all, links[i].warehouse) {
      var k :| 0 <= k < |ws| && ws[k].code == links[i].warehouse;
      assert all[k] == ws[k];
    }
  }

  /** Linking an unassigned location keeps every location in at most one warehouse. */
  lemma AssignKeeps(ws: seq<Warehouse>, locations: set<String>, links: seq<Link>, link: Link)
    requires Consistent(ws, locations, links)
    requires HasWarehouse(ws, link.warehouse) && link.location in locations
    requires !IsAssigned(links, link.location)
    ensures Consistent(ws, locations, links + [link])
  {
    var all := links + [link];
    forall i, j | 0 <= i < j < |all| ensures all[i].location != all[j].location {
      assert all[i] == links[i];
      if j < |links| { assert all[j] == links[j]; }
    }
  }

  function CodeKey(w: Warehouse): String { w.code }

  /** ListLocations' page: the warehouse's location codes in table order,
      at most the clamped limit. */
  function LocationPage(links: seq<Link>, wh: String, limit: int): seq<String> {
    Take(LocationsOf(links, wh), ClampLimit(limit, 500, 100))
  }

  /** The page is at most the clamped limit, lists only linked locations,
      and lists all of them when they fit. */
  lemma LocationPageSpec(links: seq<Link>, wh: String, limit: int)
    ensures |LocationPage(links, wh, limit)| <= ClampLimit(limit, 500, 100)
    ensures forall l :: l in LocationPage(links, wh, limit) ==> Link(wh, l) in links
    ensures |LinksOf(links, wh)| <= ClampLimit(limit, 500, 100) ==>
      forall l :: Link(wh, l) in links ==> l in LocationPage(links, wh, limit)
  {
    var locs := LocationsOf(links, wh);
    forall l | l in LocationPage(links, wh, limit) ensures Link(wh, l) in links {
      var k :| 0 <= k < |LocationPage(links, wh, limit)| && LocationPage(links, wh, limit)[k] == l;
      assert locs[k] in locs;
    }
  }

  /** What ListLocations returns: a blank code is invalid, an unknown
      warehouse not found, otherwise the page. */
  function ListResult(warehouses: seq<Warehouse>, links: seq<Link>, whCode: String, limit: int)
    : (r: Result<seq<String>, WarehouseError>)
    ensures r == Err(InvalidWarehouseCode) <==> TrimSpace(whCode) == []
    ensures r == Err(WarehouseNotFound) <==> TrimSpace(whCode) != [] && !HasWarehouse(warehouses, TrimSpace(whCode))
    ensures r.Ok? <==> TrimSpace(whCode) != [] && HasWarehouse(warehouses, TrimSpace(whCode))
    ensures r.Ok? ==> r.value == LocationPage(links, TrimSpace(whCode), limit)
  {
    var w := TrimSpace(whCode);
    if w == [] then Err(InvalidWarehouseCode)
    else if !HasWarehouse(warehouses, w) then Err(WarehouseNotFound)
    else Ok(LocationPage(links, w, limit))
  }

  /** The page is the location of each fetched link, in order. */
  lemma PageCodes(links: seq<Link>, wh: String, limit: int)
    ensures LocationPage(links, wh, limit) == Locations(Take(LinksOf(links, wh), ClampLimit(limit, 500, 100)))
  {
  }

  /** The loop of ListLocations: each link's location, in order. The
      location edge is required, so none is skipped. */
  method LinkedLocations(links: seq<Link>) returns (out: seq<String>)
    ensures out == Locations(links)
  {
    out := [];
    var i := 0;
    while i < |links|
      invariant 0 <= i <= |links|
      invariant out == Locations(links[..i])
    {
      assert Locations(links[..i + 1]) == Locations(links[..i]) + [links[i].location];
      out := out + [links[i].location];
      i := i + 1;
    }
    assert links[..i] == links;
  }

  /** The warehouse and link tables of one database, over its location codes. */
  class MultiwarehouseService {
    const locations: set<String>
    var warehouses: seq<Warehouse>
    var links: seq<Link>

    ghost predicate Valid()
      reads this
    {
      Consistent(warehouses, locations, links)
    }

    constructor(locations: set<String>)
      ensures Valid() && this.locations == locations && warehouses == [] && links == []
    {
      this.locations := locations;
      warehouses := [];
      links := [];
    }

    method CreateWarehouse(code: String, name: String) returns (r: Result<Warehouse, WarehouseError>)
      requires Valid()
      modifies this
      ensures Valid()
      ensures r == PlanWarehouse(old(warehouses), code, name)
      ensures links == old(links)
      ensures r.Ok? ==> warehouses == old(warehouses) + [r.value]
      ensures r.Err? ==> warehouses == old(warehouses)
    {
      r := PlanWarehouse(warehouses, code, name);
      if r.Ok? {
        CreateKeeps(warehouses, locations, links, r.value);
        warehouses := warehouses + [r.value];
      }
    }

    /** Warehouses in ascending code order, at most the page size. */
    method ListWarehouses(limit: int) returns (ws: seq<Warehouse>)
      ensures ws == Take(Sorting.SortBy(warehouses, CodeKey), ClampLimit(limit, 500, 100))
      ensures |ws| <= ClampLimit(limit, 500, 100)
      ensures |warehouses| <= ClampLimit(limit, 500, 100) ==> multiset(ws) == multiset(warehouses)
      ensures Sorting.SortedBy(ws, CodeKey)
      ensures forall w :: w in ws ==> w in warehouses
    {
      var sorted := Sorting.SortBy(warehouses, CodeKey);
      ws := Take(sorted, ClampLimit(limit, 500, 100));
      forall w | w in ws ensures w in warehouses {
        assert w in multiset(sorted);
      }
      if |warehouses| <= ClampLimit(limit, 500, 100) {
        assert ws == sorted;
      }
    }

    method AssignLocation(whCode: String, locCode: String) returns (err: Option<WarehouseError>)
      requires Valid()
      modifies this
      ensures Valid()
      ensures warehouses == old(warehouses)
      ensures match PlanAssign(old(warehouses), locations, old(links), whCode, locCode)
        case Ok(link) => err == None && links == old(links) + [link]
        case Err(e) => err == Some(e) && links == old(links)
    {
      match PlanAssign(warehouses, locations, links, whCode, locCode)
      case Err(e) =>
        err := Some(e);
      case Ok(link) =>
        AssignKeeps(warehouses, locations, links, link);
        links := links + [link];
        err := None;
    }

    /** The location codes linked to a warehouse, at most the page size. */
    method ListLocations(whCode: String, limit: int) returns (r: Result<seq<String>, WarehouseError>)
      ensures r == ListResult(warehouses, links, whCode, limit)
    {
      var w := TrimSpace(whCode);
      if w == [] {
        return Err(InvalidWarehouseCode);
      }
      var n := ClampLimit(limit, 500, 100);
      if !HasWarehouse(warehouses, w) {
        return Err(WarehouseNotFound);
      }
      var page := Take(LinksOf(links, w), n);
      var out := LinkedLocations(page);
      PageCodes(links, w, limit);
      r := Ok(out);
    }
  }
}
