/** Shipment tracking of an order in the `wms` tree: at most one record
    per order, kept as a map from order number to record. */
module Tracking {
  import opened Base
  import opened Text

  datatype Record = Record(trackingId: String, trackingUrl: String, carrier: String)

  /** What `Get` hands back: the order number and the tracking fields,
      the latter empty when the order has no record. */
  datatype View = View(orderNr: String, trackingId: String, trackingUrl: String, carrier: String)

  datatype TrackingError = InvalidOrderNr | OrderNotFound | InvalidTracking

  /** The schema's non-empty tracking id, for every stored record. */
  ghost predicate RecordsValid(records: map<String, Record>) {
    forall o :: o in records ==> records[o].trackingId != []
  }

  /** The record `Set` stores: a fresh one takes all three fields; an
      update overwrites id and URL and keeps the old carrier when the new
      one is blank. */
  function Upsert(prior: Option<Record>, id: String, url: String, carrier: String): (t: Record)
    ensures t.trackingId == id && t.trackingUrl == url
    ensures carrier != [] ==> t.carrier == carrier
    ensures carrier == [] && prior.Some? ==> t.carrier == prior.value.carrier
    ensures carrier == [] && prior.None? ==> t.carrier == []
  {
    match prior
    case None => Record(id, url, carrier)
    case Some(old_) => Record(id, url, if carrier != [] then carrier else old_.carrier)
  }

  function Existing(records: map<String, Record>, o: String): Option<Record> {
    if o in records then Some(records[o]) else None
  }

  /** Set: the order number and the tracking id must be non-blank and the
      order must exist; the result is the order number and its new record. */
  function PlanSet(orders: set<String>, records: map<String, Record>,
                   orderNr: String, id: String, url: String, carrier: String)
    : (r: Result<(String, Record), TrackingError>)
    ensures r == Err(InvalidOrderNr) <==> TrimSpace(orderNr) == []
    ensures TrimSpace(orderNr) != [] ==> (r == Err(InvalidTracking) <==> TrimSpace(id) == [])
    ensures r == Err(OrderNotFound) <==>
      TrimSpace(orderNr) != [] && TrimSpace(id) != [] && TrimSpace(orderNr) !in orders
    ensures r.Ok? ==> (r.value.0 == TrimSpace(orderNr) && r.value.0 in orders
      && r.value.1.trackingId == TrimSpace(id) && r.value.1.trackingUrl == TrimSpace(url))
  {
    var o := TrimSpace(orderNr);
    var i := TrimSpace(id);
    if o == [] then Err(InvalidOrderNr)
    else if i == [] then Err(InvalidTracking)
    else if o !in orders then Err(OrderNotFound)
    else Ok((o, Upsert(Existing(records, o), i, TrimSpace(url), TrimSpace(carrier))))
  }

  /** Get: the order's view, with blank tracking fields when no record exists. */
  function Lookup(orders: set<String>, records: map<String, Record>, orderNr: String): (r: Result<View, TrackingError>)
    ensures r == Err(InvalidOrderNr) <==> TrimSpace(orderNr) == []
    ensures r == Err(OrderNotFound) <==> TrimSpace(orderNr) != [] && TrimSpace(orderNr) !in orders
    ensures r.Ok? <==> TrimSpace(orderNr) != [] && TrimSpace(orderNr) in orders
    ensures r.Ok? ==> r.value.orderNr == TrimSpace(orderNr)
    ensures r.Ok? && TrimSpace(orderNr) !in records ==> r.value == View(TrimSpace(orderNr), [], [], [])
    ensures r.Ok? && TrimSpace(orderNr) in records ==>
      var t := records[TrimSpace(orderNr)];
      r.value == View(TrimSpace(orderNr), t.trackingId, t.trackingUrl, t.carrier)
  {
    var o := TrimSpace(orderNr);
    if o == [] then Err(InvalidOrderNr)
    else if o !in orders then Err(OrderNotFound)
    else if o !in records then Ok(View(o, [], [], []))
    else Ok(View(o, records[o].trackingId, records[o].trackingUrl, records[o].carrier))
  }

  /** Clear: the order number must be non-blank and the order must exist. */
  function PlanClear(orders: set<String>, orderNr: String): (r: Result<String, TrackingError>)
    ensures r == Err(InvalidOrderNr) <==> TrimSpace(orderNr) == []
    ensures r == Err(OrderNotFound) <==> TrimSpace(orderNr) != [] && TrimSpace(orderNr) !in orders
    ensures r.Ok? <==> TrimSpace(orderNr) != [] && TrimSpace(orderNr) in orders
    ensures r.Ok? ==> r.value == TrimSpace(orderNr) && r.value in orders
  {
    var o := TrimSpace(orderNr);
    if o == [] then Err(InvalidOrderNr)
    else if o !in orders then Err(OrderNotFound)
    else Ok(o)
  }

  /** Reading back after a successful Set gives the values just set, with
      the carrier kept from before when the new one was blank. */
  lemma SetThenGet(orders: set<String>, records: map<String, Record>,
                   orderNr: String, id: String, url: String, carrier: String)
    requires PlanSet(orders, records, orderNr, id, url, carrier).Ok?
    ensures var (o, t) := PlanSet(orders, records, orderNr, id, url, carrier).value;
      var v := Lookup(orders, records[o := t], orderNr);
      v.Ok? && v.value.trackingId == TrimSpace(id) && v.value.trackingUrl == TrimSpace(url)
      && v.value.carrier == (if TrimSpace(carrier) != [] then TrimSpace(carrier)
                             else if o in records then records[o].carrier else [])
  {
  }

  /** Setting the same values twice leaves the same records as setting them once. */
  lemma SetTwice(orders: set<String>, records: map<String, Record>,
                 orderNr: String, id: String, url: String, carrier: String)
    requires PlanSet(orders, records, orderNr, id, url, carrier).Ok?
    ensures var (o, t) := PlanSet(orders, records, orderNr, id, url, carrier).value;
      var again := PlanSet(orders, records[o := t], orderNr, id, url, carrier);
      again.Ok? && records[o := t][again.value.0 := again.value.1] == records[o := t]
  {
    var (o, t) := PlanSet(orders, records, orderNr, id, url, carrier).value;
    var i, u, c := TrimSpace(id), TrimSpace(url), TrimSpace(carrier);
    assert t == Upsert(Existing(records, o), i, u, c);
    assert i != [] && o == TrimSpace(orderNr) && o in orders;
    var records' := records[o := t];
    assert Existing(records', o) == Some(t);
    UpsertAgain(Existing(records, o), i, u, c);
    PlanSetOk(orders, records', orderNr, id, url, carrier);
    UpdateSame(records', o, t);
  }

  lemma UpdateSame<K, V>(m: map<K, V>, k: K, v: V)
    requires k in m && m[k] == v
    ensures m[k := v] == m
  {
  }

  lemma PlanSetOk(orders: set<String>, records: map<String, Record>,
                  orderNr: String, id: String, url: String, carrier: String)
    requires TrimSpace(orderNr) != [] && TrimSpace(id) != [] && TrimSpace(orderNr) in orders
    ensures PlanSet(orders, records, orderNr, id, url, carrier)
      == Ok((TrimSpace(orderNr), Upsert(Existing(records, TrimSpace(orderNr)), TrimSpace(id), TrimSpace(url), TrimSpace(carrier))))
  {
  }

  /** Upserting the same fields over the record they produced changes nothing. */
  lemma UpsertAgain(prior: Option<Record>, id: String, url: String, carrier: String)
    ensures Upsert(Some(Upsert(prior, id, url, carrier)), id, url, carrier) == Upsert(prior, id, url, carrier)
  {
  }

  /** After Clear the order reads back with blank tracking fields. */
  lemma ClearThenGet(orders: set<String>, records: map<String, Record>, orderNr: String)
    requires PlanClear(orders, orderNr).Ok?
    ensures Lookup(orders, records - {TrimSpace(orderNr)}, orderNr) == Ok(View(TrimSpace(orderNr), [], [], []))
  {
  }

  class TrackingService {
    /** Order numbers of the orders in the store. */
    const orders: set<String>
    var records: map<String, Record>

    ghost predicate Valid()
      reads this
    {
      RecordsValid(records) && records.Keys <= orders
    }

    constructor(orders: set<String>)
      ensures Valid() && this.orders == orders && records == map[]
    {
      this.orders := orders;
      records := map[];
    }

    method Set(orderNr: String, id: String, url: String, carrier: String) returns (err: Option<TrackingError>)
      requires Valid()
      modifies this
      ensures Valid()
      ensures match PlanSet(orders, old(records), orderNr, id, url, carrier)
        case Ok(p) => err == None && records == old(records)[p.0 := p.1]
        case Err(e) => err == Some(e) && records == old(records)
    {
      match PlanSet(orders, records, orderNr, id, url, carrier)
      case Err(e) =>
        err := Some(e);
      case Ok(p) =>
        records := records[p.0 := p.1];
        err := None;
    }

    method Get(orderNr: String) returns (r: Result<View, TrackingError>)
      ensures r == Lookup(orders, records, orderNr)
    {
      r := Lookup(orders, records, orderNr);
    }

    /** Deleting a record that is not there is not an error. */
    method Clear(orderNr: String) returns (err: Option<TrackingError>)
      requires Valid()
      modifies this
      ensures Valid()
      ensures match PlanClear(orders, orderNr)
        case Ok(o) => err == None && records == old(records) - {o}
        case Err(e) => err == Some(e) && records == old(records)
    {
      match PlanClear(orders, orderNr)
      case Err(e) =>
        err := Some(e);
      case Ok(o) =>
        records := records - {o};
        err := None;
    }
  }
}
