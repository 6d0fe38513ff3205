/** The order lifecycle of
    warhousemanagementsystem/internal/core/ordermanagement/orders/service.go:
    DRAFT -> POSTED | CANCELLED, where posting turns every line into one
    ledger movement inside one transaction. */
module Orders {
  import opened Base
  import opened Text
  import Stock

  const Inbound: String := "INBOUND"
  const Outbound: String := "OUTBOUND"

  datatype OrderStatus = Draft | Posted | Cancelled

  /** An order row: its unique number, the type string, the status. */
  datatype Order = Order(number: String, kind: String, status: OrderStatus)

  /** An order line: the order's number, the item's SKU and the location's
      code as stored, and a positive quantity. */
  datatype OrderLine = OrderLine(order: String, sku: String, location: String, qty: int)

  datatype OrderError =
    | OrderNotFound | OrderExists | InvalidOrderNo | InvalidOrderType
    | InvalidStatus | NoLines | InvalidQuantity
    | ItemNotFound       // AddLine's "fetching item"
    | LocationNotFound   // AddLine's "fetching location"
    | StockFailed(cause: Stock.StockError)   // a ledger error, returned unwrapped

  /** The reference passed to the ledger with every movement of a posting. */
  function OrderRef(number: String): (r: String)
    ensures |r| == 6 + |number| && r[..6] == "ORDER-" && r[6..] == number
  {
    "ORDER-" + number
  }

  /** What `create` decides: a DRAFT order of the requested type, unless the
      number is taken. An empty number is not refused here. */
  function PlanCreate(orders: map<String, Order>, number: String, kind: String): (r: Result<Order, OrderError>)
    ensures r == Err(OrderExists) <==> number in orders
    ensures r.Ok? <==> number !in orders
    ensures r.Ok? ==> r.value.number == number && r.value.kind == kind && r.value.status == Draft
  {
    if number in orders then Err(OrderExists) else Ok(Order(number, kind, Draft))
  }

  /** What `AddLine` decides: the new line, or the error. The number and the
      quantity are checked before any lookup; SKU and location code are
      looked up exactly as given (not trimmed). */
  function PlanAddLine(orders: map<String, Order>, items: set<String>, locations: set<String>,
                       number: String, sku: String, loc: String, qty: int): (r: Result<OrderLine, OrderError>)
    ensures number == [] ==> r == Err(InvalidOrderNo)
    ensures number != [] && qty <= 0 ==> r == Err(InvalidQuantity)
    ensures number != [] && qty > 0 && number !in orders ==> r == Err(OrderNotFound)
    ensures number != [] && qty > 0 && number in orders && orders[number].status != Draft ==> r == Err(InvalidStatus)
    ensures r.Ok? <==> (number != [] && qty > 0 && number in orders && orders[number].status == Draft
                        && sku in items && loc in locations)
    ensures r.Ok? ==> r.value == OrderLine(number, sku, loc, qty)
  {
    if number == [] then Err(InvalidOrderNo)
    else if qty <= 0 then Err(InvalidQuantity)
    else if number !in orders then Err(OrderNotFound)
    else if orders[number].status != Draft then Err(InvalidStatus)
    else if sku !in items then Err(ItemNotFound)
    else if loc !in locations then Err(LocationNotFound)
    else Ok(OrderLine(number, sku, loc, qty))
  }

  /** The lines of one order, in the order they were added. */
  function LinesOf(lines: seq<OrderLine>, number: String): (r: seq<OrderLine>)
    ensures forall i :: 0 <= i < |r| ==> r[i] in lines && r[i].order == number
    ensures forall i :: 0 <= i < |lines| && lines[i].order == number ==> lines[i] in r
  {
    if lines == [] then []
    else (if lines[0].order == number then [lines[0]] else []) + LinesOf(lines[1..], number)
  }

  function Lift(r: Result<Stock.Movement, Stock.StockError>): Result<Stock.Movement, OrderError> {
    match r
    case Ok(m) => Ok(m)
    case Err(e) => Err(StockFailed(e))
  }

  /** One iteration of the posting loop: an IN for an inbound order, an OUT
      for an outbound one, checked against the ledger as it stands so far. */
  function PostStep(items: set<String>, locations: set<String>, ms: seq<Stock.Movement>,
                    kind: String, line: OrderLine, ref: String, now: int): (r: Result<Stock.Movement, OrderError>)
    ensures kind != Inbound && kind != Outbound ==> r == Err(InvalidOrderType)
    ensures r.Ok? ==> r.value == LineMovement(line, kind, ref, now) && r.value.qty > 0
    ensures r.Ok? && kind == Outbound ==>
      Stock.StockAt(ms, TrimSpace(line.sku), TrimSpace(line.location)) >= line.qty
  {
    if kind == Inbound then Lift(Stock.PlanIn(items, locations, line.sku, line.location, line.qty, ref, now))
    else if kind == Outbound then Lift(Stock.PlanOut(items, locations, ms, line.sku, line.location, line.qty, ref, now))
    else Err(InvalidOrderType)
  }

  /** The movements that posting `ls` writes, line by line, each line seeing
      the movements of the lines before it; the first error stops it. */
  function PostLines(items: set<String>, locations: set<String>, ms: seq<Stock.Movement>,
                     kind: String, ls: seq<OrderLine>, ref: String, now: int): Result<seq<Stock.Movement>, OrderError>
    decreases |ls|
  {
    if ls == [] then Ok([])
    else
      match PostLines(items, locations, ms, kind, ls[..|ls| - 1], ref, now)
      case Err(e) => Err(e)
      case Ok(acc) =>
        match PostStep(items, locations, ms + acc, kind, ls[|ls| - 1], ref, now)
        case Err(e) => Err(e)
        case Ok(m) => Ok(acc + [m])
  }

  /** What `PostOrder` decides: the movements to commit with the status
      flip, or the error (after which the transaction is rolled back). */
  function PlanPost(orders: map<String, Order>, lines: seq<OrderLine>, items: set<String>, locations: set<String>,
                    ms: seq<Stock.Movement>, number: String, now: int): (r: Result<seq<Stock.Movement>, OrderError>)
    ensures number == [] ==> r == Err(InvalidOrderNo)
    ensures number != [] && number !in orders ==> r == Err(OrderNotFound)
    ensures number != [] && number in orders && orders[number].status != Draft ==> r == Err(InvalidStatus)
    ensures (number != [] && number in orders && orders[number].status == Draft
             && LinesOf(lines, number) == []) ==> r == Err(NoLines)
    ensures r.Ok? ==> number != [] && number in orders && orders[number].status == Draft && LinesOf(lines, number) != []
  {
    if number == [] then Err(InvalidOrderNo)
    else if number !in orders then Err(OrderNotFound)
    else if orders[number].status != Draft then Err(InvalidStatus)
    else if LinesOf(lines, number) == [] then Err(NoLines)
    else PostLines(items, locations, ms, orders[number].kind, LinesOf(lines, number), OrderRef(number), now)
  }

  /** What `CancelOrder` decides: None when DRAFT becomes CANCELLED. */
  function PlanCancel(orders: map<String, Order>, number: String): (r: Option<OrderError>)
    ensures number == [] ==> r == Some(InvalidOrderNo)
    ensures number != [] && number !in orders ==> r == Some(OrderNotFound)
    ensures r.None? <==> number in orders && number != [] && orders[number].status == Draft
    ensures number in orders && number != [] && orders[number].status != Draft ==> r == Some(InvalidStatus)
  {
    if number == [] then Some(InvalidOrderNo)
    else if number !in orders then Some(OrderNotFound)
    else if orders[number].status != Draft then Some(InvalidStatus)
    else None
  }

  // ---------------------------------------------------------------------
  // What a posting does to the ledger.

  /** The movement type an order type posts, and the sign it gives stock. */
  function TypeFor(kind: String): Stock.MovementType {
    if kind == Inbound then Stock.In else Stock.Out
  }

  /** `n` with the sign an order type gives stock. */
  function Signed(kind: String, n: int): int {
    if kind == Inbound then n else -n
  }

  /** The movement a line becomes. */
  function LineMovement(line: OrderLine, kind: String, ref: String, now: int): Stock.Movement {
    Stock.Movement(TrimSpace(line.sku), TrimSpace(line.location), TypeFor(kind), line.qty, Stock.RefOf(ref), now)
  }

  /** Σ quantity of the lines that land on the pair (sku, loc). */
  function LineSum(ls: seq<OrderLine>, sku: String, loc: String): int
    decreases |ls|
  {
    if ls == [] then 0
    else
      var last := ls[|ls| - 1];
      LineSum(ls[..|ls| - 1], sku, loc)
        + (if TrimSpace(last.sku) == sku && TrimSpace(last.location) == loc then last.qty else 0)
  }

  /** One step of PostLines, unfolded: a successful posting of `ls` is a
      successful posting of all but its last line, followed by that line. */
  lemma PostLinesLast(items: set<String>, locations: set<String>, ms: seq<Stock.Movement>,
                      kind: String, ls: seq<OrderLine>, ref: String, now: int)
    requires ls != []
    requires PostLines(items, locations, ms, kind, ls, ref, now).Ok?
    ensures PostLines(items, locations, ms, kind, ls[..|ls| - 1], ref, now).Ok?
    ensures var prev := PostLines(items, locations, ms, kind, ls[..|ls| - 1], ref, now).value;
      && PostStep(items, locations, ms + prev, kind, ls[|ls| - 1], ref, now).Ok?
      && PostLines(items, locations, ms, kind, ls, ref, now).value
         == prev + [PostStep(items, locations, ms + prev, kind, ls[|ls| - 1], ref, now).value]
  {
  }

  /** A successful posting writes one movement per line, in line order, of
      the order's type, carrying the line's item, location and quantity and
      the posting's reference. */
  lemma {:induction false} PostLinesShape(items: set<String>, locations: set<String>, ms: seq<Stock.Movement>,
                                          kind: String, ls: seq<OrderLine>, ref: String, now: int, i: nat)
    requires PostLines(items, locations, ms, kind, ls, ref, now).Ok?
    requires i < |ls|
    ensures |PostLines(items, locations, ms, kind, ls, ref, now).value| == |ls|
    ensures kind == Inbound || kind == Outbound
    ensures PostLines(items, locations, ms, kind, ls, ref, now).value[i] == LineMovement(ls[i], kind, ref, now)
    decreases |ls|
  {
    var init := ls[..|ls| - 1];
    PostLinesLast(items, locations, ms, kind, ls, ref, now);
    var prev := PostLines(items, locations, ms, kind, init, ref, now).value;
    if i < |init| {
      PostLinesShape(items, locations, ms, kind, init, ref, now, i);
      assert ls[i] == init[i];
    } else {
      PostLinesLength(items, locations, ms, kind, init, ref, now);
      var step := PostStep(items, locations, ms + prev, kind, ls[|ls| - 1], ref, now);
      var acc := PostLines(items, locations, ms, kind, ls, ref, now).value;
      assert acc == prev + [step.value];
      assert acc[i] == step.value;
      assert step.Ok?;
      assert i == |ls| - 1;
      assert step.value == LineMovement(ls[|ls| - 1], kind, ref, now);
      assert ls[i] == ls[|ls| - 1];
      assert acc[i] == LineMovement(ls[i], kind, ref, now);
    }
  }

  lemma {:induction false} PostLinesLength(items: set<String>, locations: set<String>, ms: seq<Stock.Movement>,
                                           kind: String, ls: seq<OrderLine>, ref: String, now: int)
    requires PostLines(items, locations, ms, kind, ls, ref, now).Ok?
    ensures |PostLines(items, locations, ms, kind, ls, ref, now).value| == |ls|
    decreases |ls|
  {
    if ls != [] {
      PostLinesLast(items, locations, ms, kind, ls, ref, now);
      PostLinesLength(items, locations, ms, kind, ls[..|ls| - 1], ref, now);
    }
  }

  /** Posting moves every pair's stock by exactly the lines on that pair:
      up for an inbound order, down for an outbound one. */
  lemma {:induction false} PostLinesStock(items: set<String>, locations: set<String>, ms: seq<Stock.Movement>,
                                          kind: String, ls: seq<OrderLine>, ref: String, now: int, sku: String, loc: String)
    requires PostLines(items, locations, ms, kind, ls, ref, now).Ok?
    ensures Stock.StockAt(ms + PostLines(items, locations, ms, kind, ls, ref, now).value, sku, loc)
            == Stock.StockAt(ms, sku, loc) + Signed(kind, LineSum(ls, sku, loc))
    decreases |ls|
  {
    var acc := PostLines(items, locations, ms, kind, ls, ref, now).value;
    if ls == [] {
      assert ms + acc == ms;
    } else {
      var init, last := ls[..|ls| - 1], ls[|ls| - 1];
      PostLinesLast(items, locations, ms, kind, ls, ref, now);
      PostLinesStock(items, locations, ms, kind, init, ref, now, sku, loc);
      var prev := PostLines(items, locations, ms, kind, init, ref, now).value;
      var m := PostStep(items, locations, ms + prev, kind, last, ref, now).value;
      assert acc == prev + [m];
      AppendOne(ms, prev, m);
      assert m == LineMovement(last, kind, ref, now);
      var here := if TrimSpace(last.sku) == sku && TrimSpace(last.location) == loc then last.qty else 0;
      assert LineSum(ls, sku, loc) == LineSum(init, sku, loc) + here;
      Stock.StockAtAppend(ms + prev, m, sku, loc);
      LineDelta(last, kind, ref, now, sku, loc);
      assert Stock.StockAt(ms + acc, sku, loc) == Stock.StockAt(ms + prev, sku, loc) + Signed(kind, here);
    }
  }

  lemma AppendOne<T>(s: seq<T>, t: seq<T>, x: T)
    ensures s + (t + [x]) == (s + t) + [x]
  {
  }

  /** A line's movement changes the stock of the pair (sku, loc) by the
      line's share of LineSum. */
  lemma LineDelta(line: OrderLine, kind: String, ref: String, now: int, sku: String, loc: String)
    requires kind == Inbound || kind == Outbound
    ensures Stock.Delta(LineMovement(line, kind, ref, now), sku, loc)
            == Signed(kind, if TrimSpace(line.sku) == sku && TrimSpace(line.location) == loc then line.qty else 0)
  {
  }

  /** One posting step keeps the ledger invariant. */
  lemma StepKeepsValid(items: set<String>, locations: set<String>, ms: seq<Stock.Movement>,
                       kind: String, line: OrderLine, ref: String, now: int)
    requires Stock.ValidLedger(ms)
    requires PostStep(items, locations, ms, kind, line, ref, now).Ok?
    ensures Stock.ValidLedger(ms + [PostStep(items, locations, ms, kind, line, ref, now).value])
  {
    var m := PostStep(items, locations, ms, kind, line, ref, now).value;
    assert m == LineMovement(line, kind, ref, now) && m.qty > 0;
    assert m.kind == Stock.Out ==> kind == Outbound;
    Stock.AppendKeepsValid(ms, m);
  }

  /** Posting keeps the ledger invariant: no pair goes negative. */
  lemma {:induction false} PostLinesPreservesValid(items: set<String>, locations: set<String>, ms: seq<Stock.Movement>,
                                                   kind: String, ls: seq<OrderLine>, ref: String, now: int)
    requires Stock.ValidLedger(ms)
    requires PostLines(items, locations, ms, kind, ls, ref, now).Ok?
    ensures Stock.ValidLedger(ms + PostLines(items, locations, ms, kind, ls, ref, now).value)
    decreases |ls|
  {
    var acc := PostLines(items, locations, ms, kind, ls, ref, now).value;
    if ls == [] {
      assert ms + acc == ms;
    } else {
      var init, last := ls[..|ls| - 1], ls[|ls| - 1];
      PostLinesLast(items, locations, ms, kind, ls, ref, now);
      PostLinesPreservesValid(items, locations, ms, kind, init, ref, now);
      var prev := PostLines(items, locations, ms, kind, init, ref, now).value;
      var m := PostStep(items, locations, ms + prev, kind, last, ref, now).value;
      AppendOne(ms, prev, m);
      StepKeepsValid(items, locations, ms + prev, kind, last, ref, now);
    }
  }

  /** Outbound posting: every pair's lines together fit in that pair's
      stock, since each OUT is checked against a balance that already
      includes the earlier lines of the same posting. */
  lemma OutboundLinesFit(items: set<String>, locations: set<String>, ms: seq<Stock.Movement>,
                         ls: seq<OrderLine>, ref: String, now: int)
    requires Stock.ValidLedger(ms)
    requires PostLines(items, locations, ms, Outbound, ls, ref, now).Ok?
    ensures forall sku, loc :: LineSum(ls, sku, loc) <= Stock.StockAt(ms, sku, loc)
  {
    PostLinesPreservesValid(items, locations, ms, Outbound, ls, ref, now);
    forall sku, loc ensures LineSum(ls, sku, loc) <= Stock.StockAt(ms, sku, loc) {
      PostLinesStock(items, locations, ms, Outbound, ls, ref, now, sku, loc);
    }
  }

  /** A line that IN or OUT would accept, stock aside. */
  predicate LineAcceptable(items: set<String>, locations: set<String>, line: OrderLine) {
    && TrimSpace(line.sku) != [] && TrimSpace(line.location) != []
    && TrimSpace(line.sku) in items && TrimSpace(line.location) in locations
    && line.qty > 0
  }

  lemma {:induction false} LineSumNonNegative(ls: seq<OrderLine>, sku: String, loc: String)
    requires forall i :: 0 <= i < |ls| ==> ls[i].qty > 0
    ensures LineSum(ls, sku, loc) >= 0
    decreases |ls|
  {
    if ls != [] { LineSumNonNegative(ls[..|ls| - 1], sku, loc); }
  }

  /** An acceptable line whose quantity fits in its pair's stock posts as an OUT. */
  lemma OutStepOk(items: set<String>, locations: set<String>, ms: seq<Stock.Movement>,
                  line: OrderLine, ref: String, now: int)
    requires LineAcceptable(items, locations, line)
    requires Stock.StockAt(ms, TrimSpace(line.sku), TrimSpace(line.location)) >= line.qty
    ensures PostStep(items, locations, ms, Outbound, line, ref, now).Ok?
  {
  }

  /** Conversely, outbound lines that are all acceptable and whose per-pair
      totals fit in stock post without error. */
  lemma {:induction false} OutboundPostsWhenLinesFit(items: set<String>, locations: set<String>, ms: seq<Stock.Movement>,
                                                     ls: seq<OrderLine>, ref: String, now: int)
    requires AllAcceptable(items, locations, ls)
    requires LinesFit(ms, ls)
    ensures PostLines(items, locations, ms, Outbound, ls, ref, now).Ok?
    decreases |ls|
  {
    if ls != [] {
      AcceptableInit(items, locations, ls);
      FitsInit(ms, ls);
      OutboundPostsWhenLinesFit(items, locations, ms, ls[..|ls| - 1], ref, now);
      OutLastFits(items, locations, ms, ls, ref, now);
    }
  }

  /** Every line refers to a known item and location with a positive quantity. */
  predicate AllAcceptable(items: set<String>, locations: set<String>, ls: seq<OrderLine>) {
    forall i :: 0 <= i < |ls| ==> LineAcceptable(items, locations, ls[i])
  }

  /** For every (SKU, location) pair the lines' total fits in stock. */
  ghost predicate LinesFit(ms: seq<Stock.Movement>, ls: seq<OrderLine>) {
    forall sku, loc :: LineSum(ls, sku, loc) <= Stock.StockAt(ms, sku, loc)
  }

  lemma AcceptableInit(items: set<String>, locations: set<String>, ls: seq<OrderLine>)
    requires ls != [] && AllAcceptable(items, locations, ls)
    ensures AllAcceptable(items, locations, ls[..|ls| - 1])
    ensures LineAcceptable(items, locations, ls[|ls| - 1])
  {
    var init := ls[..|ls| - 1];
    forall i | 0 <= i < |init| ensures LineAcceptable(items, locations, init[i]) {
      assert init[i] == ls[i];
    }
  }

  lemma LineSumInit(ls: seq<OrderLine>, sku: String, loc: String)
    requires ls != [] && ls[|ls| - 1].qty > 0
    ensures LineSum(ls[..|ls| - 1], sku, loc) <= LineSum(ls, sku, loc)
  {
  }

  lemma FitsInit(ms: seq<Stock.Movement>, ls: seq<OrderLine>)
    requires ls != [] && ls[|ls| - 1].qty > 0 && LinesFit(ms, ls)
    ensures LinesFit(ms, ls[..|ls| - 1])
    ensures LineSum(ls, TrimSpace(ls[|ls| - 1].sku), TrimSpace(ls[|ls| - 1].location))
            <= Stock.StockAt(ms, TrimSpace(ls[|ls| - 1].sku), TrimSpace(ls[|ls| - 1].location))
  {
    forall sku, loc ensures LineSum(ls[..|ls| - 1], sku, loc) <= Stock.StockAt(ms, sku, loc) {
      LineSumInit(ls, sku, loc);
    }
  }

  /** The last outbound line posts once the ones before it have, when the
      lines' total for its pair fits in stock. */
  lemma OutLastFits(items: set<String>, locations: set<String>, ms: seq<Stock.Movement>,
                    ls: seq<OrderLine>, ref: String, now: int)
    requires ls != [] && LineAcceptable(items, locations, ls[|ls| - 1])
    requires PostLines(items, locations, ms, Outbound, ls[..|ls| - 1], ref, now).Ok?
    requires LineSum(ls, TrimSpace(ls[|ls| - 1].sku), TrimSpace(ls[|ls| - 1].location))
             <= Stock.StockAt(ms, TrimSpace(ls[|ls| - 1].sku), TrimSpace(ls[|ls| - 1].location))
    ensures PostLines(items, locations, ms, Outbound, ls, ref, now).Ok?
  {
    var init, last := ls[..|ls| - 1], ls[|ls| - 1];
    var prev := PostLines(items, locations, ms, Outbound, init, ref, now).value;
    var s, l := TrimSpace(last.sku), TrimSpace(last.location);
    PostLinesStock(items, locations, ms, Outbound, init, ref, now, s, l);
    OutStepOk(items, locations, ms + prev, last, ref, now);
  }

  /** Inbound lines that are all acceptable always post. */
  lemma {:induction false} InboundPostsWhenLinesAcceptable(items: set<String>, locations: set<String>,
                                                           ms: seq<Stock.Movement>, ls: seq<OrderLine>, ref: String, now: int)
    requires AllAcceptable(items, locations, ls)
    ensures PostLines(items, locations, ms, Inbound, ls, ref, now).Ok?
    decreases |ls|
  {
    if ls != [] {
      AcceptableInit(items, locations, ls);
      InboundPostsWhenLinesAcceptable(items, locations, ms, ls[..|ls| - 1], ref, now);
    }
  }

  /** An order whose type is neither INBOUND nor OUTBOUND fails on its first line. */
  lemma InvalidTypeNeverPosts(items: set<String>, locations: set<String>, ms: seq<Stock.Movement>,
                              kind: String, ls: seq<OrderLine>, ref: String, now: int)
    requires kind != Inbound && kind != Outbound && ls != []
    ensures PostLines(items, locations, ms, kind, ls, ref, now) == Err(InvalidOrderType)
  {
    if |ls| > 1 {
      InvalidTypeNeverPosts(items, locations, ms, kind, ls[..|ls| - 1], ref, now);
    }
  }

  // ---------------------------------------------------------------------
  // The service.

  /** Every order is stored under its own number; every line has a positive
      quantity and belongs to a stored order. */
  ghost predicate Tables(orders: map<String, Order>, lines: seq<OrderLine>) {
    && (forall n :: n in orders ==> orders[n].number == n)
    && (forall i :: 0 <= i < |lines| ==> lines[i].qty > 0 && lines[i].order in orders)
  }

  /** Changing the status of a stored order keeps the tables consistent. */
  lemma StatusKeeps(orders: map<String, Order>, lines: seq<OrderLine>, number: String, st: OrderStatus)
    requires Tables(orders, lines) && number in orders
    ensures Tables(orders[number := orders[number].(status := st)], lines)
  {
  }

  class OrderService {
    var orders: map<String, Order>
    var lines: seq<OrderLine>
    /** The ledger on the same store; PostOrder writes it inside its transaction. */
    const ledger: Stock.StockService

    ghost predicate Valid()
      reads this, ledger
    {
      ledger.Valid() && Tables(orders, lines)
    }

    constructor (ledger: Stock.StockService)
      requires ledger.Valid()
      ensures Valid() && this.ledger == ledger && orders == map[] && lines == []
    {
      this.ledger := ledger;
      orders := map[];
      lines := [];
    }

    /** `create`: inserts a DRAFT order unless the number already exists. */
    method Create(number: String, kind: String) returns (r: Result<Order, OrderError>)
      requires Valid()
      modifies this
      ensures Valid()
      ensures r == PlanCreate(old(orders), number, kind)
      ensures lines == old(lines)
      ensures orders == if r.Ok? then old(orders)[number := r.value] else old(orders)
    {
      r := PlanCreate(orders, number, kind);
      if r.Ok? {
        orders := orders[number := r.value];
      }
    }

    method CreateInboundOrder(number: String) returns (r: Result<Order, OrderError>)
      requires Valid()
      modifies this
      ensures Valid()
      ensures r == PlanCreate(old(orders), number, Inbound)
      ensures lines == old(lines)
      ensures orders == if r.Ok? then old(orders)[number := r.value] else old(orders)
    {
      r := Create(number, Inbound);
    }

    method CreateOutboundOrder(number: String) returns (r: Result<Order, OrderError>)
      requires Valid()
      modifies this
      ensures Valid()
      ensures r == PlanCreate(old(orders), number, Outbound)
      ensures lines == old(lines)
      ensures orders == if r.Ok? then old(orders)[number := r.value] else old(orders)
    {
      r := Create(number, Outbound);
    }

    /** `AddLine`: appends the line to a DRAFT order. */
    method AddLine(number: String, sku: String, loc: String, qty: int) returns (r: Result<OrderLine, OrderError>)
      requires Valid()
      modifies this
      ensures Valid()
      ensures r == PlanAddLine(old(orders), ledger.items, ledger.locations, number, sku, loc, qty)
      ensures orders == old(orders)
      ensures lines == if r.Ok? then old(lines) + [r.value] else old(lines)
    {
      r := PlanAddLine(orders, ledger.items, ledger.locations, number, sku, loc, qty);
      if r.Ok? {
        lines := lines + [r.value];
      }
    }

    /** `PostOrder`: all movements and the POSTED status, or no change at all. */
    method PostOrder(number: String, now: int) returns (err: Option<OrderError>)
      requires Valid()
      modifies this, ledger
      ensures Valid()
      ensures lines == old(lines)
      ensures ledger.items == old(ledger.items) && ledger.locations == old(ledger.locations)
      ensures match PlanPost(old(orders), old(lines), old(ledger.items), old(ledger.locations),
                             old(ledger.movements), number, now)
              case Ok(acc) =>
                && err == None
                && ledger.movements == old(ledger.movements) + acc
                && orders == old(orders)[number := old(orders)[number].(status := Posted)]
              case Err(e) =>
                && err == Some(e)
                && ledger.movements == old(ledger.movements)
                && orders == old(orders)
    {
      if number == [] {
        return Some(InvalidOrderNo);
      }
      if number !in orders {
        return Some(OrderNotFound);
      }
      var o := orders[number];
      if o.status != Draft {
        return Some(InvalidStatus);
      }
      var ls := LinesOf(lines, number);
      if |ls| == 0 {
        return Some(NoLines);
      }
      assert PlanPost(orders, lines, ledger.items, ledger.locations, ledger.movements, number, now)
        == PostLines(ledger.items, ledger.locations, ledger.movements, o.kind, ls, OrderRef(number), now);
      err := Commit(number, o, ls, now);
    }

    /** The part of PostOrder inside its transaction: the lines applied, then
        the status set to POSTED; on an error nothing of it remains. */
    method Commit(number: String, o: Order, ls: seq<OrderLine>, now: int) returns (err: Option<OrderError>)
      requires Valid() && number in orders && orders[number] == o
      modifies this, ledger
      ensures Valid()
      ensures lines == old(lines)
      ensures ledger.items == old(ledger.items) && ledger.locations == old(ledger.locations)
      ensures match PostLines(old(ledger.items), old(ledger.locations), old(ledger.movements), o.kind, ls, OrderRef(number), now)
              case Ok(acc) =>
                && err == None
                && ledger.movements == old(ledger.movements) + acc
                && orders == old(orders)[number := o.(status := Posted)]
              case Err(e) =>
                && err == Some(e)
                && ledger.movements == old(ledger.movements)
                && orders == old(orders)
    {
      err := ApplyLines(o.kind, ls, OrderRef(number), now);
      if err.None? {
        StatusKeeps(orders, lines, number, Posted);
        orders := orders[number := o.(status := Posted)];
      }
    }

    /** The transaction of PostOrder: every line applied in order; on the
        first error the ledger is rolled back to where it stood. */
    method ApplyLines(kind: String, ls: seq<OrderLine>, ref: String, now: int) returns (err: Option<OrderError>)
      requires ledger.Valid()
      modifies ledger
      ensures ledger.Valid()
      ensures ledger.items == old(ledger.items) && ledger.locations == old(ledger.locations)
      ensures match PostLines(ledger.items, ledger.locations, old(ledger.movements), kind, ls, ref, now)
              case Ok(acc) => err == None && ledger.movements == old(ledger.movements) + acc
              case Err(e) => err == Some(e) && ledger.movements == old(ledger.movements)
    {
      var snapshot := ledger.movements;
      ghost var items, locations := ledger.items, ledger.locations;
      var i := 0;
      ghost var prev: seq<Stock.Movement> := [];
      assert ls[..0] == [] && snapshot + [] == snapshot;
      assert PostLines(items, locations, snapshot, kind, ls[..0], ref, now) == Ok([]);
      while i < |ls|
        invariant 0 <= i <= |ls|
        invariant ledger.Valid()
        invariant ledger.items == items && ledger.locations == locations
        invariant PostLines(items, locations, snapshot, kind, ls[..i], ref, now) == Ok(prev)
        invariant ledger.movements == snapshot + prev
      {
        ghost var step := PostStep(items, locations, snapshot + prev, kind, ls[i], ref, now);
        PostLinesExtend(items, locations, snapshot, kind, ls, i, ref, now);
        err := ApplyLine(kind, ls[i], ref, now);
        if err.Some? {
          ledger.movements := snapshot;  // rollback
          PostLinesPrefixError(items, locations, snapshot, kind, ls, i + 1, ref, now);
          return;
        }
        AppendOne(snapshot, prev, step.value);
        prev := prev + [step.value];
        i := i + 1;
      }
      assert ls[..i] == ls;
      return None;
    }

    /** One iteration of PostOrder's loop: IN for an inbound order, OUT for
        an outbound one, any other type refused. */
    method ApplyLine(kind: String, line: OrderLine, ref: String, now: int) returns (err: Option<OrderError>)
      requires ledger.Valid()
      modifies ledger
      ensures ledger.Valid()
      ensures ledger.items == old(ledger.items) && ledger.locations == old(ledger.locations)
      ensures match PostStep(ledger.items, ledger.locations, old(ledger.movements), kind, line, ref, now)
              case Ok(m) => err == None && ledger.movements == old(ledger.movements) + [m]
              case Err(e) => err == Some(e) && ledger.movements == old(ledger.movements)
    {
      var stockErr: Option<Stock.StockError>;
      if kind == Inbound {
        stockErr := ledger.In(line.sku, line.location, line.qty, ref, now);
      } else if kind == Outbound {
        stockErr := ledger.Out(line.sku, line.location, line.qty, ref, now);
      } else {
        return Some(InvalidOrderType);
      }
      err := if stockErr.Some? then Some(StockFailed(stockErr.value)) else None;
    }

    /** `CancelOrder`: DRAFT becomes CANCELLED; the ledger is not touched. */
    method CancelOrder(number: String) returns (err: Option<OrderError>)
      requires Valid()
      modifies this
      ensures Valid()
      ensures err == PlanCancel(old(orders), number)
      ensures lines == old(lines)
      ensures orders == if err.None? then old(orders)[number := old(orders)[number].(status := Cancelled)]
                        else old(orders)
    {
      err := PlanCancel(orders, number);
      if err.None? {
        orders := orders[number := orders[number].(status := Cancelled)];
      }
    }
  }

  /** Posting one more line: the posting of the longer prefix is the
      posting of the shorter one followed by one more step. */
  lemma PostLinesExtend(items: set<String>, locations: set<String>, ms: seq<Stock.Movement>,
                        kind: String, ls: seq<OrderLine>, i: nat, ref: String, now: int)
    requires i < |ls|
    requires PostLines(items, locations, ms, kind, ls[..i], ref, now).Ok?
    ensures var prev := PostLines(items, locations, ms, kind, ls[..i], ref, now).value;
      var step := PostStep(items, locations, ms + prev, kind, ls[i], ref, now);
      PostLines(items, locations, ms, kind, ls[..i + 1], ref, now)
        == if step.Ok? then Ok(prev + [step.value]) else Err(step.error)
  {
    assert ls[..i + 1][..i] == ls[..i];
  }

  /** An error on a prefix of the lines is the error of the whole posting. */
  lemma {:induction false} PostLinesPrefixError(items: set<String>, locations: set<String>, ms: seq<Stock.Movement>,
                                                kind: String, ls: seq<OrderLine>, k: nat, ref: String, now: int)
    requires k <= |ls|
    requires PostLines(items, locations, ms, kind, ls[..k], ref, now).Err?
    ensures PostLines(items, locations, ms, kind, ls, ref, now) == PostLines(items, locations, ms, kind, ls[..k], ref, now)
    decreases |ls| - k
  {
    if k < |ls| {
      assert ls[..k + 1][..k] == ls[..k];
      PostLinesPrefixError(items, locations, ms, kind, ls, k + 1, ref, now);
    } else {
      assert ls[..k] == ls;
    }
  }
}
