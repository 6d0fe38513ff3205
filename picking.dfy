/** The picking workflow of wms/internal/features/picking/service.go: a
    picklist per order goes CREATED -> IN_PROGRESS -> DONE, and each of its
    tasks (one per order line) goes OPEN -> PICKED. */
module Picking {
  import opened Base
  import opened Text
  import Sorting

  datatype ListStatus = Created | InProgress | Done
  datatype TaskStatus = Open | Picked

  /** The item and the location an order line points at, as loaded with it. */
  datatype ItemRef = ItemRef(id: nat, sku: String, name: String)
  datatype LocationRef = LocationRef(id: nat, code: String)

  /** An order line as picking loads it; its item and location edges may be absent. */
  datatype PickLine = PickLine(id: nat, qty: int, item: Option<ItemRef>, location: Option<LocationRef>)

  /** A storage bin: its id, code, location and the ids of the items it holds. */
  datatype Bin = Bin(id: nat, code: String, location: nat, items: set<nat>)

  datatype PickList = PickList(id: nat, order: String, status: ListStatus,
                               createdAt: int, startedAt: Option<int>, doneAt: Option<int>)

  datatype PickTask = PickTask(id: nat, picklist: nat, line: PickLine, qty: int,
                               status: TaskStatus, pickedAt: Option<int>, bin: Option<nat>)

  /** The tables picking reads and never writes: orders with their lines, and bins. */
  datatype Catalog = Catalog(orders: map<String, seq<PickLine>>, bins: seq<Bin>)

  datatype PickError =
    | InvalidOrderNr | OrderNotFound | PickListExists | PickListNotFound
    | TaskNotFound | InvalidStatus
    | TasksStillOpen(count: nat)   // "cannot finish picklist: %d task(s) still OPEN"
    | TaskCreateFailed             // "create pick task": the task row was refused

  datatype TaskView = TaskView(id: nat, sku: String, itemName: String, location: String,
                               bin: String, qty: int, status: TaskStatus)

  datatype PickListView = PickListView(id: nat, orderNr: String, status: ListStatus, createdAt: int,
                                       startedAt: Option<int>, doneAt: Option<int>, tasks: seq<TaskView>)

  predicate DistinctLineIds(lines: seq<PickLine>) {
    forall i, j :: 0 <= i < j < |lines| ==> lines[i].id != lines[j].id
  }

  ghost predicate ValidCatalog(c: Catalog) {
    && (forall n :: n in c.orders ==> DistinctLineIds(c.orders[n]))
    && (forall i, j :: 0 <= i < j < |c.bins| ==> c.bins[i].id != c.bins[j].id)
  }

  /** A bin that may serve the line: it holds the line's item and, when the
      line has a location, lies at that location. */
  predicate Serves(b: Bin, line: PickLine)
    requires line.item.Some?
  {
    line.item.value.id in b.items && (line.location.None? || b.location == line.location.value.id)
  }

  /** `getBinIDForLine`: the first bin that serves the line, or none. */
  function BinForLine(bins: seq<Bin>, line: PickLine): (r: Option<nat>)
    ensures line.item.None? ==> r.None?
    ensures r.Some? ==> exists k :: 0 <= k < |bins| && bins[k].id == r.value && Serves(bins[k], line)
    ensures line.item.Some? && r.None? ==> forall k :: 0 <= k < |bins| ==> !Serves(bins[k], line)
  {
    if line.item.None? || bins == [] then None
    else if Serves(bins[0], line) then Some(bins[0].id)
    else
      var r := BinForLine(bins[1..], line);
      assert r.Some? ==> exists k :: 0 <= k < |bins| && bins[k].id == r.value && Serves(bins[k], line) by {
        if r.Some? {
          var k :| 0 <= k < |bins[1..]| && bins[1..][k].id == r.value && Serves(bins[1..][k], line);
          assert bins[k + 1] == bins[1..][k];
        }
      }
      assert r.None? ==> forall k :: 0 <= k < |bins| ==> !Serves(bins[k], line) by {
        if r.None? {
          forall k | 0 <= k < |bins| ensures !Serves(bins[k], line) {
            if k > 0 { assert bins[k] == bins[1..][k - 1]; }
          }
        }
      }
      r
  }

  /** How many of the lines get their task saved before the first refused
      one: the task table only accepts a positive quantity. */
  function SavedPrefix(lines: seq<PickLine>): (n: nat)
    ensures n <= |lines|
    ensures forall k :: 0 <= k < n ==> lines[k].qty > 0
    ensures n < |lines| ==> lines[n].qty <= 0
  {
    if lines == [] || lines[0].qty <= 0 then 0
    else
      var n := SavedPrefix(lines[1..]);
      assert forall k :: 1 <= k < n + 1 ==> lines[k] == lines[1..][k - 1];
      n + 1
  }

  /** The tasks created for `lines`: one OPEN task per line, with the line's
      quantity and the bin chosen for it, numbered from `firstId`. */
  function NewTasks(picklist: nat, lines: seq<PickLine>, bins: seq<Bin>, firstId: nat): (r: seq<PickTask>)
    ensures |r| == |lines|
  {
    seq(|lines|, k requires 0 <= k < |lines| =>
      PickTask(firstId + k, picklist, lines[k], lines[k].qty, Open, None, BinForLine(bins, lines[k])))
  }

  predicate HasPickList(picklists: seq<PickList>, order: String) {
    exists i :: 0 <= i < |picklists| && picklists[i].order == order
  }

  /** The number of OPEN tasks of a picklist. */
  function OpenCount(tasks: seq<PickTask>, picklist: nat): nat {
    if tasks == [] then 0
    else OpenCount(tasks[..|tasks| - 1], picklist)
         + (if tasks[|tasks| - 1].picklist == picklist && tasks[|tasks| - 1].status == Open then 1 else 0)
  }

  /** No OPEN task is left exactly when every task of the picklist is PICKED. */
  lemma {:induction false} OpenCountZero(tasks: seq<PickTask>, picklist: nat)
    ensures OpenCount(tasks, picklist) == 0
            <==> forall i :: 0 <= i < |tasks| && tasks[i].picklist == picklist ==> tasks[i].status == Picked
  {
    if tasks != [] {
      var init := tasks[..|tasks| - 1];
      OpenCountZero(init, picklist);
      assert forall i :: 0 <= i < |init| ==> init[i] == tasks[i];
    }
  }

  lemma {:induction false} OpenCountAppend(tasks: seq<PickTask>, more: seq<PickTask>, picklist: nat)
    ensures OpenCount(tasks + more, picklist) == OpenCount(tasks, picklist) + OpenCount(more, picklist)
    decreases |more|
  {
    if more == [] {
      assert tasks + more == tasks;
    } else {
      var init := more[..|more| - 1];
      assert (tasks + more)[..|tasks + more| - 1] == tasks + init;
      OpenCountAppend(tasks, init, picklist);
    }
  }

  lemma {:induction false} OpenCountNone(tasks: seq<PickTask>, picklist: nat)
    requires forall i :: 0 <= i < |tasks| ==> tasks[i].picklist != picklist
    ensures OpenCount(tasks, picklist) == 0
  {
    if tasks != [] {
      OpenCountNone(tasks[..|tasks| - 1], picklist);
    }
  }

  lemma {:induction false} OpenCountAllOpen(tasks: seq<PickTask>, picklist: nat)
    requires forall i :: 0 <= i < |tasks| ==> tasks[i].picklist == picklist && tasks[i].status == Open
    ensures OpenCount(tasks, picklist) == |tasks|
  {
    if tasks != [] {
      OpenCountAllOpen(tasks[..|tasks| - 1], picklist);
    }
  }

  /** A new picklist whose every task was saved has one OPEN task per order
      line, so DonePickList is refused with the line count until they are
      all picked. */
  lemma NewPickListOpenCount(tasks: seq<PickTask>, picklist: nat, lines: seq<PickLine>, bins: seq<Bin>)
    requires forall i :: 0 <= i < |tasks| ==> tasks[i].picklist < picklist
    ensures OpenCount(tasks + NewTasks(picklist, lines, bins, |tasks|), picklist) == |lines|
  {
    OpenCountAppend(tasks, NewTasks(picklist, lines, bins, |tasks|), picklist);
    OpenCountNone(tasks, picklist);
    OpenCountAllOpen(NewTasks(picklist, lines, bins, |tasks|), picklist);
  }

  /** The bin label of a task: its bin's code when that is known and not
      blank, "-" otherwise. */
  function BinLabel(codes: map<nat, String>, bin: Option<nat>): (r: String)
    ensures r == "-" || (bin.Some? && bin.value in codes && r == codes[bin.value] && TrimSpace(r) != [])
    ensures bin.None? ==> r == "-"
  {
    if bin.Some? && bin.value in codes && TrimSpace(codes[bin.value]) != [] then codes[bin.value] else "-"
  }

  /** The TaskDTO of one task, given its bin label: SKU and name from the
      line's item, the code of the line's location, empty when absent. */
  function ViewOf(t: PickTask, binLabel: String): TaskView {
    TaskView(t.id,
             if t.line.item.Some? then t.line.item.value.sku else "",
             if t.line.item.Some? then t.line.item.value.name else "",
             if t.line.location.Some? then t.line.location.value.code else "",
             binLabel, t.qty, t.status)
  }

  function TasksOf(tasks: seq<PickTask>, picklist: nat): seq<PickTask> {
    Filter(tasks, (t: PickTask) => t.picklist == picklist)
  }

  predicate StrictlyAscending(s: seq<int>) {
    forall i, j :: 0 <= i < j < |s| ==> s[i] < s[j]
  }

  /** The bin ids that ShowPickList looks up: each task's bin, once, in
      ascending order. */
  method CollectBinIds(ts: seq<PickTask>) returns (ids: seq<int>)
    ensures StrictlyAscending(ids)
    ensures forall b :: b in ids <==> exists i :: 0 <= i < |ts| && ts[i].bin == Some(b)
  {
    var found: seq<int> := [];
    var seen: set<int> := {};
    var i := 0;
    while i < |ts|
      invariant 0 <= i <= |ts|
      invariant seen == set b | b in found
      invariant forall p, q :: 0 <= p < q < |found| ==> found[p] != found[q]
      invariant forall b :: b in found <==> exists k :: 0 <= k < i && ts[k].bin == Some(b)
    {
      if ts[i].bin.Some? {
        var b := ts[i].bin.value;
        if b !in seen {
          seen := seen + {b};
          found := found + [b];
        }
      }
      i := i + 1;
    }
    ids := Sorting.SortInts(found);
    forall p, q | 0 <= p < q < |ids| ensures ids[p] < ids[q] {
      DistinctSorted(found, ids, p, q);
    }
    forall b ensures b in ids <==> b in found {
      assert b in ids <==> b in multiset(ids);
      assert b in found <==> b in multiset(found);
    }
  }

  lemma DistinctSorted(found: seq<int>, ids: seq<int>, p: nat, q: nat)
    requires forall x, y :: 0 <= x < y < |found| ==> found[x] != found[y]
    requires Sorting.Ascending(ids) && multiset(ids) == multiset(found)
    requires p < q < |ids|
    ensures ids[p] < ids[q]
  {
    AtMostOnce(found, ids[p]);
    TwiceCounted(ids, p, q);
  }

  lemma TwiceCounted(s: seq<int>, p: nat, q: nat)
    requires p < q < |s|
    ensures s[p] == s[q] ==> multiset(s)[s[p]] >= 2
  {
    assert s == s[..p] + [s[p]] + s[p + 1..q] + [s[q]] + s[q + 1..];
  }

  lemma {:induction false} AtMostOnce(s: seq<int>, v: int)
    requires forall x, y :: 0 <= x < y < |s| ==> s[x] != s[y]
    ensures multiset(s)[v] <= 1
  {
    if s != [] {
      assert s == [s[0]] + s[1..];
      AtMostOnce(s[1..], v);
      if s[0] == v {
        assert v !in s[1..] by {
          forall k | 0 <= k < |s[1..]| ensures s[1..][k] != v { assert s[1..][k] == s[k + 1]; }
        }
      }
    }
  }

  /** `binCodeByID`: the code of every listed bin id that names a bin. */
  method BinCodes(bins: seq<Bin>, ids: seq<int>) returns (codes: map<nat, String>)
    ensures forall b :: b in codes <==> b in ids && CodeOf(bins, b).Some?
    ensures forall b :: b in codes ==> codes[b] == CodeOf(bins, b).value
  {
    codes := map[];
    var k := 0;
    while k < |bins|
      invariant 0 <= k <= |bins|
      invariant forall b :: b in codes <==> b in ids && CodeOf(bins[..k], b).Some?
      invariant forall b :: b in codes ==> codes[b] == CodeOf(bins[..k], b).value
    {
      assert bins[..k + 1][..k] == bins[..k];
      if bins[k].id in ids {
        codes := codes[bins[k].id := bins[k].code];
      }
      k := k + 1;
    }
    assert bins[..k] == bins;
  }

  /** The code of the bin with id `b`; of two bins with one id, the later
      one, as when the map is filled in table order. */
  function CodeOf(bins: seq<Bin>, b: nat): (r: Option<String>)
    ensures r.Some? <==> exists k :: 0 <= k < |bins| && bins[k].id == b
  {
    if bins == [] then None
    else if bins[|bins| - 1].id == b then Some(bins[|bins| - 1].code)
    else
      var init := bins[..|bins| - 1];
      var r := CodeOf(init, b);
      assert (exists k :: 0 <= k < |bins| && bins[k].id == b) ==> exists k :: 0 <= k < |init| && init[k].id == b by {
        if exists k :: 0 <= k < |bins| && bins[k].id == b {
          var k :| 0 <= k < |bins| && bins[k].id == b;
          assert init[k] == bins[k];
        }
      }
      r
  }

  /** The label of a bin in the view: its code when there is a bin with
      that id and its code is not blank, "-" otherwise. */
  function Label(bins: seq<Bin>, bin: Option<nat>): String {
    if bin.Some? && CodeOf(bins, bin.value).Some? && TrimSpace(CodeOf(bins, bin.value).value) != []
    then CodeOf(bins, bin.value).value
    else "-"
  }

  /** The TaskDTO of one task, reading the bin table directly. */
  function TaskViewOf(t: PickTask, bins: seq<Bin>): TaskView {
    ViewOf(t, Label(bins, t.bin))
  }

  /** Picklist ids are positions; one picklist per order (the unique index
      on the order edge); the timestamps are set exactly in the states that
      set them. */
  ghost predicate PickListsValid(picklists: seq<PickList>) {
    && (forall i :: 0 <= i < |picklists| ==> picklists[i].id == i)
    && (forall i, j :: 0 <= i < j < |picklists| ==> picklists[i].order != picklists[j].order)
    && (forall i :: 0 <= i < |picklists| ==>
          (picklists[i].startedAt.Some? <==> picklists[i].status != Created)
          && (picklists[i].doneAt.Some? <==> picklists[i].status == Done))
  }

  /** Task ids are positions; every task belongs to one of the first
      `listCount` picklists; positive quantities (the schema's `Positive()`);
      the pick time is set exactly when PICKED; one task per (picklist,
      order line), the unique index of the task table. */
  ghost predicate TasksValid(tasks: seq<PickTask>, listCount: nat) {
    && (forall i :: 0 <= i < |tasks| ==>
          tasks[i].id == i && tasks[i].picklist < listCount && tasks[i].qty > 0
          && (tasks[i].pickedAt.Some? <==> tasks[i].status == Picked))
    && (forall i, j :: 0 <= i < j < |tasks| && tasks[i].picklist == tasks[j].picklist ==>
          tasks[i].line.id != tasks[j].line.id)
  }

  /** A new CREATED picklist for an order without one keeps the table valid. */
  lemma AddPickListKeeps(picklists: seq<PickList>, order: String, now: int)
    requires PickListsValid(picklists) && !HasPickList(picklists, order)
    ensures PickListsValid(picklists + [PickList(|picklists|, order, Created, now, None, None)])
  {
    var all := picklists + [PickList(|picklists|, order, Created, now, None, None)];
    forall i | 0 <= i < |picklists| ensures all[i] == picklists[i] {}
  }

  /** Appending the tasks of a new picklist (any saved prefix of its order's
      lines) keeps the task table valid. */
  lemma NewTasksValid(tasks: seq<PickTask>, picklist: nat, lines: seq<PickLine>, k: nat, bins: seq<Bin>)
    requires TasksValid(tasks, picklist)
    requires DistinctLineIds(lines)
    requires k <= SavedPrefix(lines)
    ensures TasksValid(tasks + NewTasks(picklist, lines[..k], bins, |tasks|), picklist + 1)
  {
    var added := NewTasks(picklist, lines[..k], bins, |tasks|);
    var all := tasks + added;
    forall i | 0 <= i < |all|
      ensures all[i].id == i && all[i].picklist < picklist + 1 && all[i].qty > 0
      ensures all[i].pickedAt.Some? <==> all[i].status == Picked
    {
      if i >= |tasks| {
        assert all[i] == added[i - |tasks|];
      }
    }
    forall i, j | 0 <= i < j < |all| && all[i].picklist == all[j].picklist
      ensures all[i].line.id != all[j].line.id
    {
      if j < |tasks| {
        assert all[i] == tasks[i] && all[j] == tasks[j];
      } else if i >= |tasks| {
        assert all[i] == added[i - |tasks|] && all[j] == added[j - |tasks|];
        assert lines[i - |tasks|] != lines[j - |tasks|] || i == j;
      }
    }
  }

  class PickingService {
    var catalog: Catalog
    var picklists: seq<PickList>
    var tasks: seq<PickTask>

    /** Ids are positions; one picklist per order (the unique index on the
        order edge); one task per (picklist, order line); positive task
        quantities; the timestamps are set exactly in the states that set them. */
    ghost predicate Valid()
      reads this
    {
      ValidCatalog(catalog) && PickListsValid(picklists) && TasksValid(tasks, |picklists|)
    }

    constructor (catalog: Catalog)
      requires ValidCatalog(catalog)
      ensures Valid() && this.catalog == catalog && picklists == [] && tasks == []
    {
      this.catalog := catalog;
      picklists := [];
      tasks := [];
    }

    /** `CreatePickList`: a CREATED picklist for the order, then one task per
        line. It is not one transaction: when a task is refused, the picklist
        and the tasks saved before it stay. The order's status is not checked. */
    method CreatePickList(orderNr: String, now: int) returns (r: Result<nat, PickError>)
      requires Valid()
      modifies this
      ensures Valid()
      ensures catalog == old(catalog)
      ensures var t := TrimSpace(orderNr);
        if t == [] then r == Err(InvalidOrderNr) && picklists == old(picklists) && tasks == old(tasks)
        else if t !in catalog.orders then r == Err(OrderNotFound) && picklists == old(picklists) && tasks == old(tasks)
        else if HasPickList(old(picklists), t) then
          r == Err(PickListExists) && picklists == old(picklists) && tasks == old(tasks)
        else
          var lines := catalog.orders[t];
          var id := |old(picklists)|;
          var n := SavedPrefix(lines);
          && picklists == old(picklists) + [PickList(id, t, Created, now, None, None)]
          && tasks == old(tasks) + NewTasks(id, lines[..n], catalog.bins, |old(tasks)|)
          && r == (if n == |lines| then Ok(id) else Err(TaskCreateFailed))
    {
      var t := TrimSpace(orderNr);
      if t == [] {
        return Err(InvalidOrderNr);
      }
      if t !in catalog.orders {
        return Err(OrderNotFound);
      }
      var lines := catalog.orders[t];
      if HasPickList(picklists, t) {
        return Err(PickListExists);
      }
      var id := |picklists|;
      AddPickListKeeps(picklists, t, now);
      picklists := picklists + [PickList(id, t, Created, now, None, None)];
      var n := SaveTasks(id, lines);
      r := if n == |lines| then Ok(id) else Err(TaskCreateFailed);
    }

    /** The task loop of CreatePickList: one task per line, in order, until a
        line the task table refuses; the tasks saved before it stay. Returns
        how many were saved. */
    method SaveTasks(id: nat, lines: seq<PickLine>) returns (n: nat)
      requires ValidCatalog(catalog) && PickListsValid(picklists) && TasksValid(tasks, id)
      requires |picklists| == id + 1 && DistinctLineIds(lines)
      modifies this
      ensures Valid()
      ensures catalog == old(catalog) && picklists == old(picklists)
      ensures n == SavedPrefix(lines)
      ensures tasks == old(tasks) + NewTasks(id, lines[..n], catalog.bins, |old(tasks)|)
    {
      ghost var tasks0 := tasks;
      var k := 0;
      while k < |lines|
        invariant 0 <= k <= |lines| && k <= SavedPrefix(lines)
        invariant catalog == old(catalog) && picklists == old(picklists)
        invariant tasks == tasks0 + NewTasks(id, lines[..k], catalog.bins, |tasks0|)
      {
        if lines[k].qty <= 0 {
          NewTasksValid(tasks0, id, lines, k, catalog.bins);
          return k;
        }
        var task := PickTask(|tasks|, id, lines[k], lines[k].qty, Open, None, BinForLine(catalog.bins, lines[k]));
        tasks := tasks + [task];
        assert NewTasks(id, lines[..k + 1], catalog.bins, |tasks0|)
               == NewTasks(id, lines[..k], catalog.bins, |tasks0|) + [task];
        k := k + 1;
      }
      NewTasksValid(tasks0, id, lines, k, catalog.bins);
      return k;
    }

    /** `StartPickList`: CREATED -> IN_PROGRESS, stamping the start time. */
    method StartPickList(id: int, now: int) returns (err: Option<PickError>)
      requires Valid()
      modifies this
      ensures Valid()
      ensures catalog == old(catalog) && tasks == old(tasks)
      ensures !(0 <= id < |old(picklists)|) ==> err == Some(PickListNotFound) && picklists == old(picklists)
      ensures 0 <= id < |old(picklists)| && old(picklists)[id].status != Created ==>
                err == Some(InvalidStatus) && picklists == old(picklists)
      ensures 0 <= id < |old(picklists)| && old(picklists)[id].status == Created ==>
                err == None && picklists == old(picklists)[id := old(picklists)[id].(status := InProgress, startedAt := Some(now))]
    {
      if !(0 <= id < |picklists|) {
        return Some(PickListNotFound);
      }
      if picklists[id].status != Created {
        return Some(InvalidStatus);
      }
      picklists := picklists[id := picklists[id].(status := InProgress, startedAt := Some(now))];
      return None;
    }

    /** `MarkTaskPicked`: OPEN -> PICKED, stamping the pick time; the
        picklist's own status is not looked at. */
    method MarkTaskPicked(id: int, now: int) returns (err: Option<PickError>)
      requires Valid()
      modifies this
      ensures Valid()
      ensures catalog == old(catalog) && picklists == old(picklists)
      ensures !(0 <= id < |old(tasks)|) ==> err == Some(TaskNotFound) && tasks == old(tasks)
      ensures 0 <= id < |old(tasks)| && old(tasks)[id].status != Open ==>
                err == Some(InvalidStatus) && tasks == old(tasks)
      ensures 0 <= id < |old(tasks)| && old(tasks)[id].status == Open ==>
                err == None && tasks == old(tasks)[id := old(tasks)[id].(status := Picked, pickedAt := Some(now))]
    {
      if !(0 <= id < |tasks|) {
        return Some(TaskNotFound);
      }
      if tasks[id].status != Open {
        return Some(InvalidStatus);
      }
      tasks := tasks[id := tasks[id].(status := Picked, pickedAt := Some(now))];
      return None;
    }

    /** `DonePickList`: IN_PROGRESS -> DONE once no task is OPEN; otherwise
        the error carries the number of OPEN tasks. */
    method DonePickList(id: int, now: int) returns (err: Option<PickError>)
      requires Valid()
      modifies this
      ensures Valid()
      ensures catalog == old(catalog) && tasks == old(tasks)
      ensures !(0 <= id < |old(picklists)|) ==> err == Some(PickListNotFound) && picklists == old(picklists)
      ensures 0 <= id < |old(picklists)| && old(picklists)[id].status != InProgress ==>
                err == Some(InvalidStatus) && picklists == old(picklists)
      ensures 0 <= id < |old(picklists)| && old(picklists)[id].status == InProgress && OpenCount(tasks, id) > 0 ==>
                err == Some(TasksStillOpen(OpenCount(tasks, id))) && picklists == old(picklists)
      ensures 0 <= id < |old(picklists)| && old(picklists)[id].status == InProgress && OpenCount(tasks, id) == 0 ==>
                err == None && picklists == old(picklists)[id := old(picklists)[id].(status := Done, doneAt := Some(now))]
    {
      if !(0 <= id < |picklists|) {
        return Some(PickListNotFound);
      }
      if picklists[id].status != InProgress {
        return Some(InvalidStatus);
      }
      var open := CountOpen(id);
      if open > 0 {
        return Some(TasksStillOpen(open));
      }
      picklists := picklists[id := picklists[id].(status := Done, doneAt := Some(now))];
      return None;
    }

    /** The `COUNT` query of DonePickList. */
    method CountOpen(id: nat) returns (n: nat)
      ensures n == OpenCount(tasks, id)
    {
      n := 0;
      var i := 0;
      while i < |tasks|
        invariant 0 <= i <= |tasks|
        invariant n == OpenCount(tasks[..i], id)
      {
        assert tasks[..i + 1][..i] == tasks[..i];
        if tasks[i].picklist == id && tasks[i].status == Open {
          n := n + 1;
        }
        i := i + 1;
      }
      assert tasks[..i] == tasks;
    }

    /** `ShowPickList`: the picklist with one TaskDTO per task, each bin
        shown by its code or "-". */
    method ShowPickList(id: int) returns (r: Result<PickListView, PickError>)
      requires Valid()
      ensures !(0 <= id < |picklists|) <==> r == Err(PickListNotFound)
      ensures r.Ok? <==> 0 <= id < |picklists|
      ensures r.Ok? ==>
        var pl := picklists[id];
        var ts := TasksOf(tasks, id);
        && r.value.id == id && r.value.orderNr == pl.order && r.value.status == pl.status
        && r.value.createdAt == pl.createdAt && r.value.startedAt == pl.startedAt && r.value.doneAt == pl.doneAt
        && |r.value.tasks| == |ts|
        && forall k :: 0 <= k < |ts| ==> r.value.tasks[k] == TaskViewOf(ts[k], catalog.bins)
    {
      if !(0 <= id < |picklists|) {
        return Err(PickListNotFound);
      }
      var pl := picklists[id];
      var ts := TasksOf(tasks, id);
      var ids := CollectBinIds(ts);
      var codes := BinCodes(catalog.bins, ids);
      var views: seq<TaskView> := [];
      var k := 0;
      while k < |ts|
        invariant 0 <= k <= |ts|
        invariant |views| == k
        invariant forall j :: 0 <= j < k ==> views[j] == TaskViewOf(ts[j], catalog.bins)
      {
        if ts[k].bin.Some? {
          assert ts[k].bin.value in ids;
        }
        assert BinLabel(codes, ts[k].bin) == Label(catalog.bins, ts[k].bin);
        views := views + [ViewOf(ts[k], BinLabel(codes, ts[k].bin))];
        k := k + 1;
      }
      return Ok(PickListView(id, pl.order, pl.status, pl.createdAt, pl.startedAt, pl.doneAt, views));
    }
  }
}
