/** The item catalogue of the `warhousemanagementsystem` tree: rows with a
    store-assigned id, a unique non-empty SKU, a non-empty name and a
    description. */
module Items {
  import opened Base
  import opened Text
  import Sorting

  datatype Item = Item(id: nat, sku: String, name: String, description: String)

  datatype ItemError = ItemNotFound | InvalidSKU | InvalidName | ItemExists

  const MaxLimit := 500
  const DefaultLimit := 100

  predicate HasSku(items: seq<Item>, sku: String) {
    exists k :: 0 <= k < |items| && items[k].sku == sku
  }

  ghost predicate Catalogue(items: seq<Item>, nextId: nat) {
    (forall i, j :: 0 <= i < j < |items| ==> items[i].sku != items[j].sku && items[i].id != items[j].id)
    && (forall i :: 0 <= i < |items| ==> items[i].sku != [] && items[i].name != [] && items[i].id < nextId)
  }

  /** CreateItem: all three fields trimmed; blank SKU, blank name and a
      taken SKU refused, in that order; the new row gets id `id`. */
  function PlanCreate(items: seq<Item>, id: nat, sku: String, name: String, description: String)
    : (r: Result<Item, ItemError>)
    ensures r == Err(InvalidSKU) <==> TrimSpace(sku) == []
    ensures r == Err(InvalidName) <==> TrimSpace(sku) != [] && TrimSpace(name) == []
    ensures r == Err(ItemExists) <==>
      TrimSpace(sku) != [] && TrimSpace(name) != [] && HasSku(items, TrimSpace(sku))
    ensures r.Ok? <==> TrimSpace(sku) != [] && TrimSpace(name) != [] && !HasSku(items, TrimSpace(sku))
    ensures r.Ok? ==> r.value == Item(id, TrimSpace(sku), TrimSpace(name), TrimSpace(description))
    ensures r.Ok? ==> r.value.sku != [] && r.value.name != [] && !HasSku(items, r.value.sku)
  {
    var s := TrimSpace(sku);
    var n := TrimSpace(name);
    if s == [] then Err(InvalidSKU)
    else if n == [] then Err(InvalidName)
    else if Find(items, (x: Item) => x.sku == s).Some? then Err(ItemExists)
    else Ok(Item(id, s, n, TrimSpace(description)))
  }

  /** GetItemByID. */
  function GetById(items: seq<Item>, id: int): (r: Result<Item, ItemError>)
    ensures r.Ok? ==> r.value in items && r.value.id == id
    ensures r.Err? ==> r.error == ItemNotFound && forall k :: 0 <= k < |items| ==> items[k].id != id
  {
    match Find(items, (x: Item) => x.id == id)
    case None => Err(ItemNotFound)
    case Some(k) => Ok(items[k])
  }

  /** GetItemBySKU: a blank SKU is invalid, a missing one not found. */
  function GetBySku(items: seq<Item>, sku: String): (r: Result<Item, ItemError>)
    ensures r == Err(InvalidSKU) <==> TrimSpace(sku) == []
    ensures r == Err(ItemNotFound) <==> TrimSpace(sku) != [] && !HasSku(items, TrimSpace(sku))
    ensures r.Ok? <==> TrimSpace(sku) != [] && HasSku(items, TrimSpace(sku))
    ensures r.Ok? ==> r.value in items && r.value.sku == TrimSpace(sku)
  {
    var s := TrimSpace(sku);
    if s == [] then Err(InvalidSKU)
    else match Find(items, (x: Item) => x.sku == s)
      case None => Err(ItemNotFound)
      case Some(k) => Ok(items[k])
  }

  /** DeleteItemBySKU: every row with the SKU goes; none is an error. */
  function PlanDelete(items: seq<Item>, sku: String): (r: Result<seq<Item>, ItemError>)
    ensures r == Err(InvalidSKU) <==> TrimSpace(sku) == []
    ensures r == Err(ItemNotFound) <==> TrimSpace(sku) != [] && !HasSku(items, TrimSpace(sku))
    ensures r.Ok? <==> TrimSpace(sku) != [] && HasSku(items, TrimSpace(sku))
    ensures r.Ok? ==> forall x :: x in r.value <==> x in items && x.sku != TrimSpace(sku)
  {
    var s := TrimSpace(sku);
    if s == [] then Err(InvalidSKU)
    else if Count(items, (x: Item) => x.sku == s) == 0 then Err(ItemNotFound)
    else Ok(Filter(items, (x: Item) => x.sku != s))
  }

  function SkuKey(x: Item): String { x.sku }

  /** ListItems: ascending SKU order, at most the clamped limit. */
  function Page(items: seq<Item>, limit: int): seq<Item> {
    Take(Sorting.SortBy(items, SkuKey), ClampLimit(limit, MaxLimit, DefaultLimit))
  }

  lemma PageSpec(items: seq<Item>, limit: int)
    ensures |Page(items, limit)| <= ClampLimit(limit, MaxLimit, DefaultLimit)
    ensures Sorting.SortedBy(Page(items, limit), SkuKey)
    ensures forall x :: x in Page(items, limit) ==> x in items
    ensures |items| <= ClampLimit(limit, MaxLimit, DefaultLimit) ==> multiset(Page(items, limit)) == multiset(items)
    ensures forall x, y :: x in items && x !in Page(items, limit) && y in Page(items, limit) ==> Sorting.LessEq(y.sku, x.sku)
  {
    var sorted := Sorting.SortBy(items, SkuKey);
    forall x, y | x in items && x !in Page(items, limit) && y in Page(items, limit)
      ensures Sorting.LessEq(y.sku, x.sku)
    {
      Sorting.PageLeast(items, SkuKey, ClampLimit(limit, MaxLimit, DefaultLimit), x, y);
    }
    forall x | x in Page(items, limit) ensures x in items {
      assert x in multiset(sorted);
    }
    if |items| <= ClampLimit(limit, MaxLimit, DefaultLimit) {
      assert Page(items, limit) == sorted;
    }
  }

  /** A created item reads back by its SKU. */
  lemma CreateThenGet(items: seq<Item>, id: nat, sku: String, name: String, description: String)
    requires PlanCreate(items, id, sku, name, description).Ok?
    ensures GetBySku(items + [PlanCreate(items, id, sku, name, description).value], sku)
      == Ok(PlanCreate(items, id, sku, name, description).value)
  {
    var it := PlanCreate(items, id, sku, name, description).value;
    var all := items + [it];
    var s := TrimSpace(sku);
    var r := Find(all, (x: Item) => x.sku == s);
    assert all[|items|] == it;
    assert r.Some?;
    assert r.value == |items|;
  }

  /** After a delete the SKU is gone. */
  lemma DeleteThenGet(items: seq<Item>, sku: String)
    requires PlanDelete(items, sku).Ok?
    ensures GetBySku(PlanDelete(items, sku).value, sku) == Err(ItemNotFound)
  {
  }

  lemma CreateKeeps(items: seq<Item>, nextId: nat, it: Item)
    requires Catalogue(items, nextId)
    requires it.id == nextId && it.sku != [] && it.name != [] && !HasSku(items, it.sku)
    ensures Catalogue(items + [it], nextId + 1)
  {
    var all := items + [it];
    forall i, j | 0 <= i < j < |all| ensures all[i].sku != all[j].sku && all[i].id != all[j].id {
      assert all[i] == items[i];
      if j < |items| { assert all[j] == items[j]; }
    }
  }

  lemma CreatedKeeps(items: seq<Item>, nextId: nat, sku: String, name: String, description: String)
    requires Catalogue(items, nextId)
    requires PlanCreate(items, nextId, sku, name, description).Ok?
    ensures Catalogue(items + [PlanCreate(items, nextId, sku, name, description).value], nextId + 1)
  {
    CreateKeeps(items, nextId, PlanCreate(items, nextId, sku, name, description).value);
  }

  lemma DeleteKeeps(items: seq<Item>, nextId: nat, sku: String)
    requires Catalogue(items, nextId)
    requires PlanDelete(items, sku).Ok?
    ensures Catalogue(PlanDelete(items, sku).value, nextId)
  {
    FilterKeeps(items, nextId, (x: Item) => x.sku != TrimSpace(sku));
  }

  lemma ConsCatalogue(x: Item, rest: seq<Item>, nextId: nat)
    requires Catalogue(rest, nextId)
    requires x.sku != [] && x.name != [] && x.id < nextId
    requires forall y :: y in rest ==> y.sku != x.sku && y.id != x.id
    ensures Catalogue([x] + rest, nextId)
  {
    var all := [x] + rest;
    forall i, j | 0 <= i < j < |all| ensures all[i].sku != all[j].sku && all[i].id != all[j].id {
      assert all[j] == rest[j - 1] && rest[j - 1] in rest;
    }
  }

  lemma {:induction false} FilterKeeps(items: seq<Item>, nextId: nat, p: Item -> bool)
    requires Catalogue(items, nextId)
    ensures Catalogue(Filter(items, p), nextId)
  {
    if items != [] {
      var tail := items[1..];
      assert Catalogue(tail, nextId) by {
        forall i, j | 0 <= i < j < |tail| ensures tail[i].sku != tail[j].sku && tail[i].id != tail[j].id {
          assert tail[i] == items[i + 1] && tail[j] == items[j + 1];
        }
      }
      FilterKeeps(tail, nextId, p);
      if p(items[0]) {
        var f := Filter(tail, p);
        forall y | y in f ensures y.sku != items[0].sku && y.id != items[0].id {
          var m :| 0 <= m < |tail| && tail[m] == y;
          assert tail[m] == items[m + 1];
        }
        ConsCatalogue(items[0], f, nextId);
        assert Filter(items, p) == [items[0]] + f;
      }
    }
  }

  class ItemService {
    var items: seq<Item>
    /** The id the store hands to the next row. */
    var nextId: nat

    ghost predicate Valid()
      reads this
    {
      Catalogue(items, nextId)
    }

    constructor()
      ensures Valid() && items == []
    {
      items := [];
      nextId := 1;
    }

    method CreateItem(sku: String, name: String, description: String) returns (r: Result<Item, ItemError>)
      requires Valid()
      modifies this
      ensures Valid()
      ensures r == PlanCreate(old(items), old(nextId), sku, name, description)
      ensures r.Ok? ==> items == old(items) + [r.value] && nextId == old(nextId) + 1
      ensures r.Err? ==> items == old(items) && nextId == old(nextId)
    {
      r := PlanCreate(items, nextId, sku, name, description);
      if r.Ok? {
        CreatedKeeps(items, nextId, sku, name, description);
        Insert(r.value);
      }
    }

    /** Stores a new row under the next id. */
    method Insert(row: Item)
      requires Catalogue(items + [row], nextId + 1)
      modifies this
      ensures Valid()
      ensures items == old(items) + [row] && nextId == old(nextId) + 1
    {
      items := items + [row];
      nextId := nextId + 1;
    }

    method GetItemByID(id: int) returns (r: Result<Item, ItemError>)
      ensures r == GetById(items, id)
    {
      r := GetById(items, id);
    }

    method GetItemBySKU(sku: String) returns (r: Result<Item, ItemError>)
      ensures r == GetBySku(items, sku)
    {
      r := GetBySku(items, sku);
    }

    method ListItems(limit: int) returns (out: seq<Item>)
      ensures out == Page(items, limit)
    {
      var page := Page(items, limit);
      out := [];
      var i := 0;
      while i < |page|
        invariant 0 <= i <= |page|
        invariant out == page[..i]
      {
        var itm := page[i];
        out := out + [Item(itm.id, itm.sku, itm.name, itm.description)];
        i := i + 1;
      }
    }

    method DeleteItemBySKU(sku: String) returns (err: Option<ItemError>)
      requires Valid()
      modifies this
      ensures Valid()
      ensures nextId == old(nextId)
      ensures match PlanDelete(old(items), sku)
        case Ok(rest) => err == None && items == rest
        case Err(e) => err == Some(e) && items == old(items)
    {
      match PlanDelete(items, sku)
      case Err(e) =>
        err := Some(e);
      case Ok(rest) =>
        DeleteKeeps(items, nextId, sku);
        items := rest;
        err := None;
    }
  }
}
