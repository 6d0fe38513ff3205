/** The location table of the `warhousemanagementsystem` tree: rows with a
    store-assigned id, a unique non-empty code and a non-empty name. */
module Locations {
  import opened Base
  import opened Text
  import Sorting

  datatype Location = Location(id: nat, code: String, name: String)

  datatype LocationError = LocationNotFound | InvalidCode | InvalidName | LocationExists

  const MaxLimit := 500
  const DefaultLimit := 100

  predicate HasCode(locations: seq<Location>, code: String) {
    exists k :: 0 <= k < |locations| && locations[k].code == code
  }

  ghost predicate Catalogue(locations: seq<Location>, nextId: nat) {
    (forall i, j :: 0 <= i < j < |locations| ==> locations[i].code != locations[j].code && locations[i].id != locations[j].id)
    && (forall i :: 0 <= i < |locations| ==> locations[i].code != [] && locations[i].name != [] && locations[i].id < nextId)
  }

  /** CreateLocation: both fields trimmed; blank code, blank name and a
      taken code refused, in that order; the new row gets id `id`. */
  function PlanCreate(locations: seq<Location>, id: nat, code: String, name: String)
    : (r: Result<Location, LocationError>)
    ensures r == Err(InvalidCode) <==> TrimSpace(code) == []
    ensures r == Err(InvalidName) <==> TrimSpace(code) != [] && TrimSpace(name) == []
    ensures r == Err(LocationExists) <==>
      TrimSpace(code) != [] && TrimSpace(name) != [] && HasCode(locations, TrimSpace(code))
    ensures r.Ok? <==> TrimSpace(code) != [] && TrimSpace(name) != [] && !HasCode(locations, TrimSpace(code))
    ensures r.Ok? ==> r.value == Location(id, TrimSpace(code), TrimSpace(name))
    ensures r.Ok? ==> r.value.code != [] && r.value.name != [] && !HasCode(locations, r.value.code)
  {
    var s := TrimSpace(code);
    var n := TrimSpace(name);
    if s == [] then Err(InvalidCode)
    else if n == [] then Err(InvalidName)
    else if Find(locations, (x: Location) => x.code == s).Some? then Err(LocationExists)
    else Ok(Location(id, s, n))
  }

  /** GetLocationByCode: a blank code is invalid, a missing one not found. */
  function GetByCode(locations: seq<Location>, code: String): (r: Result<Location, LocationError>)
    ensures r == Err(InvalidCode) <==> TrimSpace(code) == []
    ensures r == Err(LocationNotFound) <==> TrimSpace(code) != [] && !HasCode(locations, TrimSpace(code))
    ensures r.Ok? <==> TrimSpace(code) != [] && HasCode(locations, TrimSpace(code))
    ensures r.Ok? ==> r.value in locations && r.value.code == TrimSpace(code)
  {
    var s := TrimSpace(code);
    if s == [] then Err(InvalidCode)
    else match Find(locations, (x: Location) => x.code == s)
      case None => Err(LocationNotFound)
      case Some(k) => Ok(locations[k])
  }

  /** DeleteLocationByCode: every row with the code goes; none is an error. */
  function PlanDelete(locations: seq<Location>, code: String): (r: Result<seq<Location>, LocationError>)
    ensures r == Err(InvalidCode) <==> TrimSpace(code) == []
    ensures r == Err(LocationNotFound) <==> TrimSpace(code) != [] && !HasCode(locations, TrimSpace(code))
    ensures r.Ok? <==> TrimSpace(code) != [] && HasCode(locations, TrimSpace(code))
    ensures r.Ok? ==> forall x :: x in r.value <==> x in locations && x.code != TrimSpace(code)
  {
    var s := TrimSpace(code);
    if s == [] then Err(InvalidCode)
    else if Count(locations, (x: Location) => x.code == s) == 0 then Err(LocationNotFound)
    else Ok(Filter(locations, (x: Location) => x.code != s))
  }

  function CodeKey(x: Location): String { x.code }

  /** ListLocations: ascending code order, at most the clamped limit. */
  function Page(locations: seq<Location>, limit: int): seq<Location> {
    Take(Sorting.SortBy(locations, CodeKey), ClampLimit(limit, MaxLimit, DefaultLimit))
  }

  lemma PageSpec(locations: seq<Location>, limit: int)
    ensures |Page(locations, limit)| <= ClampLimit(limit, MaxLimit, DefaultLimit)
    ensures Sorting.SortedBy(Page(locations, limit), CodeKey)
    ensures forall x :: x in Page(locations, limit) ==> x in locations
    ensures |locations| <= ClampLimit(limit, MaxLimit, DefaultLimit) ==> multiset(Page(locations, limit)) == multiset(locations)
    ensures forall x, y :: x in locations && x !in Page(locations, limit) && y in Page(locations, limit) ==> Sorting.LessEq(y.code, x.code)
  {
    var sorted := Sorting.SortBy(locations, CodeKey);
    forall x, y | x in locations && x !in Page(locations, limit) && y in Page(locations, limit)
      ensures Sorting.LessEq(y.code, x.code)
    {
      Sorting.PageLeast(locations, CodeKey, ClampLimit(limit, MaxLimit, DefaultLimit), x, y);
    }
    forall x | x in Page(locations, limit) ensures x in locations {
      assert x in multiset(sorted);
    }
    if |locations| <= ClampLimit(limit, MaxLimit, DefaultLimit) {
      assert Page(locations, limit) == sorted;
    }
  }

  /** A created location reads back by its code. */
  lemma CreateThenGet(locations: seq<Location>, id: nat, code: String, name: String)
    requires PlanCreate(locations, id, code, name).Ok?
    ensures GetByCode(locations + [PlanCreate(locations, id, code, name).value], code)
      == Ok(PlanCreate(locations, id, code, name).value)
  {
    var loc := PlanCreate(locations, id, code, name).value;
    var all := locations + [loc];
    var s := TrimSpace(code);
    var r := Find(all, (x: Location) => x.code == s);
    assert all[|locations|] == loc;
    assert r.Some?;
    assert r.value == |locations|;
  }

  /** After a delete the code is gone. */
  lemma DeleteThenGet(locations: seq<Location>, code: String)
    requires PlanDelete(locations, code).Ok?
    ensures GetByCode(PlanDelete(locations, code).value, code) == Err(LocationNotFound)
  {
  }

  lemma CreateKeeps(locations: seq<Location>, nextId: nat, loc: Location)
    requires Catalogue(locations, nextId)
    requires loc.id == nextId && loc.code != [] && loc.name != [] && !HasCode(locations, loc.code)
    ensures Catalogue(locations + [loc], nextId + 1)
  {
    var all := locations + [loc];
    forall i, j | 0 <= i < j < |all| ensures all[i].code != all[j].code && all[i].id != all[j].id {
      assert all[i] == locations[i];
      if j < |locations| { assert all[j] == locations[j]; }
    }
  }

  lemma CreatedKeeps(locations: seq<Location>, nextId: nat, code: String, name: String)
    requires Catalogue(locations, nextId)
    requires PlanCreate(locations, nextId, code, name).Ok?
    ensures Catalogue(locations + [PlanCreate(locations, nextId, code, name).value], nextId + 1)
  {
    CreateKeeps(locations, nextId, PlanCreate(locations, nextId, code, name).value);
  }

  lemma DeleteKeeps(locations: seq<Location>, nextId: nat, code: String)
    requires Catalogue(locations, nextId)
    requires PlanDelete(locations, code).Ok?
    ensures Catalogue(PlanDelete(locations, code).value, nextId)
  {
    FilterKeeps(locations, nextId, (x: Location) => x.code != TrimSpace(code));
  }

  lemma ConsCatalogue(x: Location, rest: seq<Location>, nextId: nat)
    requires Catalogue(rest, nextId)
    requires x.code != [] && x.name != [] && x.id < nextId
    requires forall y :: y in rest ==> y.code != x.code && y.id != x.id
    ensures Catalogue([x] + rest, nextId)
  {
    var all := [x] + rest;
    forall i, j | 0 <= i < j < |all| ensures all[i].code != all[j].code && all[i].id != all[j].id {
      assert all[j] == rest[j - 1] && rest[j - 1] in rest;
    }
  }

  lemma {:induction false} FilterKeeps(locations: seq<Location>, nextId: nat, p: Location -> bool)
    requires Catalogue(locations, nextId)
    ensures Catalogue(Filter(locations, p), nextId)
  {
    if locations != [] {
      var tail := locations[1..];
      assert Catalogue(tail, nextId) by {
        forall i, j | 0 <= i < j < |tail| ensures tail[i].code != tail[j].code && tail[i].id != tail[j].id {
          assert tail[i] == locations[i + 1] && tail[j] == locations[j + 1];
        }
      }
      FilterKeeps(tail, nextId, p);
      if p(locations[0]) {
        var f := Filter(tail, p);
        forall y | y in f ensures y.code != locations[0].code && y.id != locations[0].id {
          var m :| 0 <= m < |tail| && tail[m] == y;
          assert tail[m] == locations[m + 1];
        }
        ConsCatalogue(locations[0], f, nextId);
        assert Filter(locations, p) == [locations[0]] + f;
      }
    }
  }

  class LocationService {
    var locations: seq<Location>
    /** The id the store hands to the next row. */
    var nextId: nat

    ghost predicate Valid()
      reads this
    {
      Catalogue(locations, nextId)
    }

    constructor()
      ensures Valid() && locations == []
    {
      locations := [];
      nextId := 1;
    }

    method CreateLocation(code: String, name: String) returns (r: Result<Location, LocationError>)
      requires Valid()
      modifies this
      ensures Valid()
      ensures r == PlanCreate(old(locations), old(nextId), code, name)
      ensures r.Ok? ==> locations == old(locations) + [r.value] && nextId == old(nextId) + 1
      ensures r.Err? ==> locations == old(locations) && nextId == old(nextId)
    {
      r := PlanCreate(locations, nextId, code, name);
      if r.Ok? {
        CreatedKeeps(locations, nextId, code, name);
        Insert(r.value);
      }
    }

    /** Stores a new row under the next id. */
    method Insert(row: Location)
      requires Catalogue(locations + [row], nextId + 1)
      modifies this
      ensures Valid()
      ensures locations == old(locations) + [row] && nextId == old(nextId) + 1
    {
      locations := locations + [row];
      nextId := nextId + 1;
    }

    method GetLocationByCode(code: String) returns (r: Result<Location, LocationError>)
      ensures r == GetByCode(locations, code)
    {
      r := GetByCode(locations, code);
    }

    method ListLocations(limit: int) returns (out: seq<Location>)
      ensures out == Page(locations, limit)
    {
      var page := Page(locations, limit);
      out := [];
      var i := 0;
      while i < |page|
        invariant 0 <= i <= |page|
        invariant out == page[..i]
      {
        var l := page[i];
        out := out + [Location(l.id, l.code, l.name)];
        i := i + 1;
      }
    }

    method DeleteLocationByCode(code: String) returns (err: Option<LocationError>)
      requires Valid()
      modifies this
      ensures Valid()
      ensures nextId == old(nextId)
      ensures match PlanDelete(old(locations), code)
        case Ok(rest) => err == None && locations == rest
        case Err(e) => err == Some(e) && locations == old(locations)
    {
      match PlanDelete(locations, code)
      case Err(e) =>
        err := Some(e);
      case Ok(rest) =>
        DeleteKeeps(locations, nextId, code);
        locations := rest;
        err := None;
    }
  }
}
