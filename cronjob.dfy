// Cron job reconciliation for a workflow or test: the submitted schedule
// items are matched against the stored cron jobs of the same parent; items
// with an ID update their record, items without one are created (and learn
// their new ID), and every stored cron job of the parent that no item
// names is deleted. HandleCronjob then publishes the result to the cron
// service's message queue.

module Cronjob {
  import opened Common

  /** The kind of parent a cron job belongs to. */
  datatype ParentType = WorkflowCronjob | TestingCronjob | OtherParent(raw: string)

  /**
   * One submitted schedule item. IDs are modelled as numbers, 0 standing
   * for the zero object ID of an item that has never been stored.
   */
  datatype CronjobItem = CronjobItem(
    id: nat,
    jobType: string,
    number: int,
    frequency: string,
    time: string,
    cron: string,
    maxFailures: int,
    args: string)

  /** A stored cron job. */
  datatype Cronjob = Cronjob(
    id: nat,
    name: string,
    parentType: ParentType,
    jobType: string,
    number: int,
    frequency: string,
    time: string,
    cron: string,
    maxFailure: int,
    args: string,
    productName: string,
    enabled: bool)

  /** The parent whose cron jobs are reconciled. */
  datatype Parent = Parent(name: string, parentType: ParentType, productName: string)

  /** A call on the cron job store, and which of them fail (with their error). */
  datatype StoreCall = ListCall | UpdateCall(id: nat) | CreateCall(id: nat) | DeleteCall | PublishCall
  type StoreFaults = StoreCall -> Option<string>

  /** A store on which no call fails. */
  function NoFaults(c: StoreCall): Option<string>
  {
    None
  }

  /** The record written for an item: always enabled, with a product only for a test's cron jobs. */
  function RecordFor(item: CronjobItem, p: Parent, id: nat): (r: Cronjob)
    ensures WrittenFor(r, p) && r.id == id
  {
    Cronjob(id, p.name, p.parentType, item.jobType, item.number, item.frequency, item.time,
      item.cron, item.maxFailures, item.args,
      if p.parentType == TestingCronjob then p.productName else "", true)
  }

  /** A record as the reconciliation writes them for the parent. */
  predicate WrittenFor(r: Cronjob, p: Parent)
  {
    r.name == p.name && r.parentType == p.parentType && r.enabled
    && r.productName == (if p.parentType == TestingCronjob then p.productName else "")
  }

  /** The IDs of the stored cron jobs of the parent. */
  function ExistingIDs(records: map<nat, Cronjob>, p: Parent): set<nat>
  {
    set id | id in records && records[id].name == p.name && records[id].parentType == p.parentType
  }

  /** The IDs the submitted items name. */
  function ReferencedIDs(items: seq<CronjobItem>): set<nat>
  {
    set i | 0 <= i < |items| && items[i].id != 0 :: items[i].id
  }

  /** The store with the given IDs removed. */
  function Without(records: map<nat, Cronjob>, ids: set<nat>): (r: map<nat, Cronjob>)
    ensures r.Keys == records.Keys - ids
    ensures forall id :: id in r ==> r[id] == records[id]
  {
    map id | id in records && id !in ids :: records[id]
  }

  // ---------------------------------------------------------------------
  // Writing the items

  /** The store and items part-way through the items, and the error that stopped it, if any. */
  datatype Applied = Applied(records: map<nat, Cronjob>, nextID: nat, items: seq<CronjobItem>, err: Option<string>)

  /**
   * Write one item: an item with an ID updates that record (an update of an
   * ID the store does not hold writes nothing), an item without one is
   * created under the store's next fresh ID, which the item then carries.
   */
  function ApplyItem(a: Applied, item: CronjobItem, p: Parent, faults: StoreFaults): Applied
  {
    if item.id != 0 then
      match faults(UpdateCall(item.id))
      case Some(e) => a.(items := a.items + [item], err := Some(e))
      case None =>
        a.(records := if item.id in a.records then a.records[item.id := RecordFor(item, p, item.id)] else a.records,
           items := a.items + [item])
    else
      var id := a.nextID;
      match faults(CreateCall(id))
      case Some(e) => a.(items := a.items + [item], err := Some(e))
      case None =>
        a.(records := a.records[id := RecordFor(item, p, id)], nextID := id + 1, items := a.items + [item.(id := id)])
  }

  /** Write the items in order, stopping at the first store error; the items not reached stay as they were. */
  function ApplyItems(records: map<nat, Cronjob>, nextID: nat, items: seq<CronjobItem>, p: Parent, faults: StoreFaults): (a: Applied)
    ensures |a.items| == |items|
    decreases |items|
  {
    if |items| == 0 then Applied(records, nextID, [], None)
    else
      var prev := ApplyItems(records, nextID, items[..|items| - 1], p, faults);
      if prev.err.Some? then prev.(items := prev.items + [items[|items| - 1]])
      else ApplyItem(prev, items[|items| - 1], p, faults)
  }

  /** The outcome of the reconciliation: the store, the items, the IDs to delete, and the error, if any. */
  datatype Reconciled = Reconciled(
    records: map<nat, Cronjob>, nextID: nat, items: seq<CronjobItem>, deleted: set<nat>, err: Option<string>)

  /**
   * UpdateCronjob: list the parent's cron jobs, write the items, then delete
   * the parent's cron jobs no item named. Any store error ends it with no
   * deletions reported.
   */
  function Reconcile(records: map<nat, Cronjob>, nextID: nat, items: seq<CronjobItem>, p: Parent, faults: StoreFaults): Reconciled
  {
    if faults(ListCall).Some? then Reconciled(records, nextID, items, {}, faults(ListCall))
    else
      var a := ApplyItems(records, nextID, items, p, faults);
      if a.err.Some? then Reconciled(a.records, a.nextID, a.items, {}, a.err)
      else
        var del := ExistingIDs(records, p) - ReferencedIDs(items);
        if faults(DeleteCall).Some? then Reconciled(a.records, a.nextID, a.items, {}, faults(DeleteCall))
        else Reconciled(Without(a.records, del), a.nextID, a.items, del, None)
  }

  // ---------------------------------------------------------------------
  // What the reconciliation promises

  /** The store hands out fresh IDs: every stored ID is non-zero and below the next one. */
  predicate FreshIDs(records: map<nat, Cronjob>, nextID: nat)
  {
    0 < nextID && forall id :: id in records ==> 0 < id < nextID
  }

  /** One write keeps the IDs fresh, keeps an item that has an ID, and writes only records for the parent. */
  lemma ApplyItemFresh(a: Applied, item: CronjobItem, p: Parent, faults: StoreFaults)
    requires FreshIDs(a.records, a.nextID)
    ensures var b := ApplyItem(a, item, p, faults);
      FreshIDs(b.records, b.nextID) && a.nextID <= b.nextID
      && |b.items| == |a.items| + 1 && b.items[..|a.items|] == a.items
      && (item.id != 0 ==> b.items[|a.items|] == item)
      && (forall id :: id in b.records ==> (id in a.records && b.records[id] == a.records[id]) || WrittenFor(b.records[id], p))
  {
    var b := ApplyItem(a, item, p, faults);
    assert b.items[..|a.items|] == a.items;
  }

  /**
   * The IDs are fresh and have not gone back, every item that had an ID is
   * kept as it was, and every record changed or added is written for the
   * parent.
   */
  predicate KeepsFresh(a: Applied, items: seq<CronjobItem>, records: map<nat, Cronjob>, nextID: nat, p: Parent)
    requires |a.items| == |items|
  {
    FreshIDs(a.records, a.nextID) && nextID <= a.nextID
    && (forall i :: 0 <= i < |items| && items[i].id != 0 ==> a.items[i] == items[i])
    && (forall id :: id in a.records ==> (id in records && a.records[id] == records[id]) || WrittenFor(a.records[id], p))
  }

  /**
   * Writing the items keeps the IDs fresh and keeps every item that has an
   * ID as it was; every record it changes or adds is written for the parent.
   */
  lemma {:induction false} ApplyItemsFresh(records: map<nat, Cronjob>, nextID: nat, items: seq<CronjobItem>, p: Parent, faults: StoreFaults)
    requires FreshIDs(records, nextID)
    ensures KeepsFresh(ApplyItems(records, nextID, items, p, faults), items, records, nextID, p)
    decreases |items|
  {
    if |items| > 0 {
      var n := |items| - 1;
      ApplyItemsFresh(records, nextID, items[..n], p, faults);
      var prev := ApplyItems(records, nextID, items[..n], p, faults);
      FreshStep(prev, items[..n], items[n], records, nextID, p, faults);
      assert items[..n] + [items[n]] == items;
    }
  }

  /** One more item, written or passed over after an error, keeps the invariant. */
  lemma FreshStep(prev: Applied, items: seq<CronjobItem>, item: CronjobItem,
                  records: map<nat, Cronjob>, nextID: nat, p: Parent, faults: StoreFaults)
    requires |prev.items| == |items| && KeepsFresh(prev, items, records, nextID, p)
    ensures var b := if prev.err.Some? then prev.(items := prev.items + [item]) else ApplyItem(prev, item, p, faults);
      |b.items| == |items| + 1 && KeepsFresh(b, items + [item], records, nextID, p)
  {
    var b := if prev.err.Some? then prev.(items := prev.items + [item]) else ApplyItem(prev, item, p, faults);
    var all := items + [item];
    var n := |items|;
    if prev.err.None? {
      ApplyItemFresh(prev, item, p, faults);
    }
    assert b.items[..n] == prev.items;
    forall i | 0 <= i < n + 1 && all[i].id != 0 ensures b.items[i] == all[i] {
      if i < n {
        assert all[i] == items[i] && b.items[i] == prev.items[i];
      }
    }
  }

  /** Submitted IDs were handed out by the store before. */
  predicate IssuedIDs(items: seq<CronjobItem>, nextID: nat)
  {
    forall i :: 0 <= i < |items| ==> items[i].id < nextID
  }

  /**
   * Every item without an ID was created, as written, under a new ID at or
   * above `nextID` with its record, and the new IDs increase along the items.
   */
  predicate Creates(a: Applied, items: seq<CronjobItem>, nextID: nat, p: Parent)
    requires |a.items| == |items|
  {
    (forall i :: 0 <= i < |items| && items[i].id == 0 ==> CreatedFor(a, items[i], a.items[i], nextID, p))
    && (forall i, j :: 0 <= i < j < |items| && items[i].id == 0 && items[j].id == 0 ==> a.items[i].id < a.items[j].id)
  }

  /**
   * When no store call fails, every item without an ID gets a new ID, above
   * the old ones and increasing along the items, with its record stored
   * under it.
   */
  lemma {:induction false} ApplyItemsCreates(records: map<nat, Cronjob>, nextID: nat, items: seq<CronjobItem>, p: Parent, faults: StoreFaults)
    requires FreshIDs(records, nextID) && IssuedIDs(items, nextID)
    requires ApplyItems(records, nextID, items, p, faults).err.None?
    ensures Creates(ApplyItems(records, nextID, items, p, faults), items, nextID, p)
    decreases |items|
  {
    if |items| > 0 {
      var n := |items| - 1;
      var prev := ApplyItems(records, nextID, items[..n], p, faults);
      assert prev.err.None?;
      assert IssuedIDs(items[..n], nextID);
      ApplyItemsCreates(records, nextID, items[..n], p, faults);
      ApplyItemsFresh(records, nextID, items[..n], p, faults);
      assert ApplyItems(records, nextID, items, p, faults) == ApplyItem(prev, items[n], p, faults);
      CreatesStep(prev, items[..n], items[n], p, faults, nextID);
      assert items[..n] + [items[n]] == items;
    }
  }

  /** One more successful write keeps the earlier creations and adds its own, above them. */
  lemma CreatesStep(prev: Applied, items: seq<CronjobItem>, item: CronjobItem, p: Parent, faults: StoreFaults, nextID: nat)
    requires |prev.items| == |items| && Creates(prev, items, nextID, p)
    requires FreshIDs(prev.records, prev.nextID) && nextID <= prev.nextID && item.id < nextID
    requires ApplyItem(prev, item, p, faults).err.None?
    ensures var b := ApplyItem(prev, item, p, faults);
      |b.items| == |items| + 1 && Creates(b, items + [item], nextID, p)
  {
    var b := ApplyItem(prev, item, p, faults);
    var all := items + [item];
    var n := |items|;
    ApplyItemFresh(prev, item, p, faults);
    if item.id == 0 {
      ApplyItemCreatesNew(prev, item, p, faults, nextID);
    }
    forall i | 0 <= i < n && all[i].id == 0
      ensures CreatedFor(b, all[i], b.items[i], nextID, p)
    {
      assert all[i] == items[i] && b.items[i] == prev.items[i];
      ApplyItemKeepsCreated(prev, item, p, faults, items[i], prev.items[i], nextID);
    }
    forall i, j | 0 <= i < j < n + 1 && all[i].id == 0 && all[j].id == 0
      ensures b.items[i].id < b.items[j].id
    {
      assert all[i] == items[i] && b.items[i] == prev.items[i];
      if j < n {
        assert all[j] == items[j] && b.items[j] == prev.items[j];
      } else {
        assert CreatedFor(prev, items[i], prev.items[i], nextID, p);
      }
    }
  }

  /** A successful write of an item without an ID creates it under the store's next ID. */
  lemma ApplyItemCreatesNew(prev: Applied, item: CronjobItem, p: Parent, faults: StoreFaults, nextID: nat)
    requires nextID <= prev.nextID && item.id == 0
    requires ApplyItem(prev, item, p, faults).err.None?
    ensures var b := ApplyItem(prev, item, p, faults);
      |b.items| == |prev.items| + 1 && b.items[|prev.items|].id == prev.nextID
      && CreatedFor(b, item, b.items[|prev.items|], nextID, p)
  {
  }

  /** A later successful write leaves an earlier creation in place. */
  lemma ApplyItemKeepsCreated(prev: Applied, item: CronjobItem, p: Parent, faults: StoreFaults,
                              it: CronjobItem, w: CronjobItem, nextID: nat)
    requires FreshIDs(prev.records, prev.nextID) && item.id < nextID
    requires CreatedFor(prev, it, w, nextID, p)
    requires ApplyItem(prev, item, p, faults).err.None?
    ensures CreatedFor(ApplyItem(prev, item, p, faults), it, w, nextID, p)
  {
  }

  /** The item, written as `w`, was created under a new ID with its record. */
  predicate CreatedFor(a: Applied, item: CronjobItem, w: CronjobItem, nextID: nat, p: Parent)
  {
    w == item.(id := w.id) && nextID <= w.id < a.nextID
    && w.id in a.records && a.records[w.id] == RecordFor(item, p, w.id)
  }

  /** A successful write adds the new ID of an item without one, and no other. */
  lemma ApplyItemKeys(a: Applied, item: CronjobItem, p: Parent, faults: StoreFaults)
    requires ApplyItem(a, item, p, faults).err.None?
    ensures var b := ApplyItem(a, item, p, faults);
      |b.items| == |a.items| + 1 && b.items[..|a.items|] == a.items
      && b.records.Keys == a.records.Keys + (if item.id == 0 then {b.items[|a.items|].id} else {})
  {
    var b := ApplyItem(a, item, p, faults);
    assert b.items[..|a.items|] == a.items;
  }

  /** When no store call fails, the store holds exactly the old IDs and the new ones. */
  lemma {:induction false} ApplyItemsKeys(records: map<nat, Cronjob>, nextID: nat, items: seq<CronjobItem>, p: Parent, faults: StoreFaults)
    requires ApplyItems(records, nextID, items, p, faults).err.None?
    ensures var a := ApplyItems(records, nextID, items, p, faults);
      a.records.Keys == records.Keys + CreatedIDs(items, a.items)
    decreases |items|
  {
    if |items| > 0 {
      var n := |items| - 1;
      var prev := ApplyItems(records, nextID, items[..n], p, faults);
      var a := ApplyItems(records, nextID, items, p, faults);
      assert prev.err.None?;
      ApplyItemsKeys(records, nextID, items[..n], p, faults);
      ApplyItemKeys(prev, items[n], p, faults);
      CreatedIDsSnoc(items, a.items);
    }
  }

  /** The IDs given to the items that had none. */
  function CreatedIDs(items: seq<CronjobItem>, written: seq<CronjobItem>): set<nat>
    requires |written| == |items|
  {
    set i | 0 <= i < |items| && items[i].id == 0 :: written[i].id
  }

  lemma CreatedIDsSnoc(items: seq<CronjobItem>, written: seq<CronjobItem>)
    requires |written| == |items| > 0
    ensures var n := |items| - 1;
      CreatedIDs(items, written)
      == CreatedIDs(items[..n], written[..n]) + (if items[n].id == 0 then {written[n].id} else {})
  {
    var n := |items| - 1;
    var l := CreatedIDs(items, written);
    var r := CreatedIDs(items[..n], written[..n]) + (if items[n].id == 0 then {written[n].id} else {});
    forall id | id in l ensures id in r {
      var i :| 0 <= i < |items| && items[i].id == 0 && written[i].id == id;
      if i < n {
        assert items[..n][i] == items[i] && written[..n][i] == written[i];
      }
    }
    forall id | id in r ensures id in l {
      if id !in (if items[n].id == 0 then {written[n].id} else {}) {
        var i :| 0 <= i < n && items[..n][i].id == 0 && written[..n][i].id == id;
        assert items[i] == items[..n][i];
      }
    }
  }

  /**
   * A successful reconciliation deletes exactly the parent's stored cron jobs
   * no item named, keeps every other old ID and every created one, and
   * reports the deleted IDs; a failed one reports no deletions.
   */
  lemma ReconcileDeletes(records: map<nat, Cronjob>, nextID: nat, items: seq<CronjobItem>, p: Parent, faults: StoreFaults)
    requires FreshIDs(records, nextID) && IssuedIDs(items, nextID)
    ensures var r := Reconcile(records, nextID, items, p, faults);
      var a := ApplyItems(records, nextID, items, p, faults);
      (r.err.Some? ==> r.deleted == {})
      && (r.err.None? <==> faults(ListCall).None? && a.err.None? && faults(DeleteCall).None?)
      && (r.err.None? ==>
            r.deleted == ExistingIDs(records, p) - ReferencedIDs(items)
            && r.records.Keys == (records.Keys - r.deleted) + CreatedIDs(items, a.items)
            && r.items == a.items)
  {
    if faults(ListCall).None? {
      var a := ApplyItems(records, nextID, items, p, faults);
      if a.err.None? && faults(DeleteCall).None? {
        ApplyItemsCreates(records, nextID, items, p, faults);
        ApplyItemsKeys(records, nextID, items, p, faults);
        var del := ExistingIDs(records, p) - ReferencedIDs(items);
        forall id | id in CreatedIDs(items, a.items) ensures id !in del {
          var i :| 0 <= i < |items| && items[i].id == 0 && a.items[i].id == id;
        }
      }
    }
  }

  /**
   * Two stored cron jobs A and B of the parent, and the items A and a new
   * one: A is updated, the new item is created under the next ID, and B
   * alone is deleted.
   */
  lemma ReconcileScenario(p: Parent, recA: Cronjob, recB: Cronjob, itemA: CronjobItem, itemNew: CronjobItem)
    requires recA.name == p.name && recA.parentType == p.parentType
    requires recB.name == p.name && recB.parentType == p.parentType
    requires itemA.id == 1 && itemNew.id == 0
    ensures var r := Reconcile(map[1 := recA, 2 := recB], 3, [itemA, itemNew], p, NoFaults);
      r.err.None?
      && r.deleted == {2}
      && r.items == [itemA, itemNew.(id := 3)]
      && r.records == map[1 := RecordFor(itemA, p, 1), 3 := RecordFor(itemNew, p, 3)]
  {
    var records := map[1 := recA, 2 := recB];
    var items := [itemA, itemNew];
    ScenarioApplied(records, p, itemA, itemNew);
    assert ExistingIDs(records, p) == {1, 2};
    assert ReferencedIDs(items) == {1} by {
      assert items[0].id == 1 && items[1].id == 0;
    }
  }

  /** The writes of the scenario: A updated in place, the new item created under ID 3. */
  lemma ScenarioApplied(records: map<nat, Cronjob>, p: Parent, itemA: CronjobItem, itemNew: CronjobItem)
    requires itemA.id == 1 && itemNew.id == 0 && 1 in records
    ensures ApplyItems(records, 3, [itemA, itemNew], p, NoFaults)
         == Applied(records[1 := RecordFor(itemA, p, 1)][3 := RecordFor(itemNew, p, 3)], 4,
                    [itemA, itemNew.(id := 3)], None)
  {
    var items := [itemA, itemNew];
    var faults: StoreFaults := NoFaults;
    assert items[..1] == [itemA] && [itemA][..0] == [];
    var a0 := ApplyItems(records, 3, [], p, faults);
    assert a0 == Applied(records, 3, [], None);
    var a1 := ApplyItems(records, 3, [itemA], p, faults);
    assert a1 == ApplyItem(a0, itemA, p, faults);
    assert a1 == Applied(records[1 := RecordFor(itemA, p, 1)], 3, [itemA], None);
    assert ApplyItems(records, 3, items, p, faults) == ApplyItem(a1, itemNew, p, faults);
  }

  /** The list names each ID of the set once, and nothing else. */
  predicate ListsExactly(ids: seq<nat>, s: set<nat>)
  {
    (forall id :: id in ids ==> id in s)
    && (forall id :: id in s ==> id in ids)
    && (forall i, j :: 0 <= i < j < |ids| ==> ids[i] != ids[j])
  }

  // ---------------------------------------------------------------------
  // The store and the message queue

  /** The cron job collection; IDs are handed out from a counter. */
  class CronjobColl {
    var records: map<nat, Cronjob>
    var nextID: nat

    constructor(records: map<nat, Cronjob>, nextID: nat)
      requires FreshIDs(records, nextID)
      ensures this.records == records && this.nextID == nextID && Valid()
    {
      this.records := records;
      this.nextID := nextID;
    }

    predicate Valid()
      reads this
    {
      FreshIDs(records, nextID)
    }

    /** The IDs of the parent's cron jobs. */
    method List(p: Parent, faults: StoreFaults) returns (r: Result<set<nat>>)
      ensures faults(ListCall).Some? ==> r == Err(faults(ListCall).value)
      ensures faults(ListCall).None? ==> r == Ok(ExistingIDs(records, p))
    {
      if faults(ListCall).Some? {
        return Err(faults(ListCall).value);
      }
      return Ok(ExistingIDs(records, p));
    }

    /** Replace the record with the job's ID, if there is one. */
    method Update(job: Cronjob, faults: StoreFaults) returns (err: Option<string>)
      modifies this
      ensures err == faults(UpdateCall(job.id)) && nextID == old(nextID)
      ensures records == if err.None? && job.id in old(records) then old(records)[job.id := job] else old(records)
    {
      err := faults(UpdateCall(job.id));
      if err.None? && job.id in records {
        records := records[job.id := job];
      }
    }

    /** Store the job under a fresh ID, which is returned. */
    method Create(job: Cronjob, faults: StoreFaults) returns (id: nat, err: Option<string>)
      modifies this
      ensures id == old(nextID) && err == faults(CreateCall(id))
      ensures err.None? ==> records == old(records)[id := job.(id := id)] && nextID == id + 1
      ensures err.Some? ==> records == old(records) && nextID == old(nextID)
    {
      id := nextID;
      err := faults(CreateCall(id));
      if err.None? {
        records := records[id := job.(id := id)];
        nextID := id + 1;
      }
    }

    /** Delete the listed IDs. */
    method Delete(ids: seq<nat>, faults: StoreFaults) returns (err: Option<string>)
      modifies this
      ensures err == faults(DeleteCall) && nextID == old(nextID)
      ensures records == if err.None? then Without(old(records), set id | id in ids) else old(records)
    {
      err := faults(DeleteCall);
      if err.None? {
        records := Without(records, set id | id in ids);
      }
    }
  }

  /** The schedule submitted with a workflow or test. */
  class ScheduleCtrl {
    var enabled: bool
    var items: seq<CronjobItem>

    constructor(enabled: bool, items: seq<CronjobItem>)
      ensures this.enabled == enabled && this.items == items
    {
      this.enabled := enabled;
      this.items := items;
    }
  }

  /** Write every item, in order, with its record for the parent. */
  method WriteItems(store: CronjobColl, schedule: ScheduleCtrl, p: Parent, faults: StoreFaults) returns (err: Option<string>)
    modifies store, schedule
    ensures var a := ApplyItems(old(store.records), old(store.nextID), old(schedule.items), p, faults);
      store.records == a.records && store.nextID == a.nextID && schedule.items == a.items && err == a.err
    ensures schedule.enabled == old(schedule.enabled)
  {
    var items := schedule.items;
    var i := 0;
    var written: seq<CronjobItem> := [];
    while i < |schedule.items|
      invariant 0 <= i <= |schedule.items| && schedule.items == items
      invariant schedule.enabled == old(schedule.enabled)
      invariant var a := ApplyItems(old(store.records), old(store.nextID), items[..i], p, faults);
        store.records == a.records && store.nextID == a.nextID && written == a.items && a.err.None?
    {
      assert items[..i + 1][..i] == items[..i];
      var item := schedule.items[i];
      var job := RecordFor(item, p, item.id);
      if item.id != 0 {
        err := store.Update(job, faults);
        if err.Some? {
          schedule.items := written + [item] + items[i + 1..];
          ApplyItemsRest(old(store.records), old(store.nextID), items, i + 1, p, faults);
          return;
        }
        written := written + [item];
      } else {
        var id;
        id, err := store.Create(job, faults);
        if err.Some? {
          schedule.items := written + [item] + items[i + 1..];
          ApplyItemsRest(old(store.records), old(store.nextID), items, i + 1, p, faults);
          return;
        }
        written := written + [item.(id := id)];
      }
      i := i + 1;
    }
    assert items[..i] == items;
    schedule.items := written;
    err := None;
  }

  /** Once the writing has stopped, the remaining items are kept as they were. */
  lemma {:induction false} ApplyItemsRest(records: map<nat, Cronjob>, nextID: nat, items: seq<CronjobItem>, i: nat, p: Parent, faults: StoreFaults)
    requires 0 < i <= |items| && ApplyItems(records, nextID, items[..i], p, faults).err.Some?
    ensures var a := ApplyItems(records, nextID, items[..i], p, faults);
      ApplyItems(records, nextID, items, p, faults) == a.(items := a.items + items[i..])
    decreases |items| - i
  {
    if i < |items| {
      var a := ApplyItems(records, nextID, items[..i], p, faults);
      assert items[..i + 1][..i] == items[..i];
      assert ApplyItems(records, nextID, items[..i + 1], p, faults) == a.(items := a.items + [items[i]]);
      ApplyItemsRest(records, nextID, items, i + 1, p, faults);
      assert items[i..] == [items[i]] + items[i + 1..];
      AppendAssoc(a.items, [items[i]], items[i + 1..]);
    } else {
      assert items[..i] == items;
      assert items[i..] == [];
    }
  }

  /**
   * UpdateCronjob: reconcile the parent's stored cron jobs with the schedule
   * and return the deleted IDs, each once, in no particular order; a store
   * error returns no list.
   */
  method UpdateCronjob(store: CronjobColl, schedule: ScheduleCtrl, p: Parent, faults: StoreFaults)
    returns (deleteList: seq<nat>, err: Option<string>)
    modifies store, schedule
    ensures var r := Reconcile(old(store.records), old(store.nextID), old(schedule.items), p, faults);
      store.records == r.records && store.nextID == r.nextID && schedule.items == r.items && err == r.err
      && ListsExactly(deleteList, r.deleted)
    ensures schedule.enabled == old(schedule.enabled)
  {
    deleteList := [];
    var listed := store.List(p, faults);
    if listed.Err? {
      return [], Some(listed.msg);
    }
    var idMap := listed.value;
    ghost var referenced: set<nat> := {};
    ghost var items := schedule.items;
    var i := 0;
    while i < |schedule.items|
      invariant 0 <= i <= |schedule.items| && schedule.items == items
      invariant referenced == ReferencedIDs(items[..i])
      invariant idMap == ExistingIDs(old(store.records), p) - referenced
      invariant store.records == old(store.records) && store.nextID == old(store.nextID)
      invariant schedule.enabled == old(schedule.enabled)
    {
      if schedule.items[i].id != 0 {
        idMap := idMap - {schedule.items[i].id};
      }
      ReferencedSnoc(items, i);
      referenced := ReferencedIDs(items[..i + 1]);
      i := i + 1;
    }
    assert items[..i] == items;
    err := WriteItems(store, schedule, p, faults);
    if err.Some? {
      return [], err;
    }
    var pending := idMap;
    while pending != {}
      invariant pending <= idMap
      invariant ListsExactly(deleteList, idMap - pending)
      decreases pending
    {
      var k :| k in pending;
      deleteList := deleteList + [k];
      pending := pending - {k};
    }
    assert (set id | id in deleteList) == idMap;
    err := store.Delete(deleteList, faults);
    if err.Some? {
      return [], err;
    }
  }

  lemma ReferencedSnoc(items: seq<CronjobItem>, i: nat)
    requires i < |items|
    ensures ReferencedIDs(items[..i + 1])
         == ReferencedIDs(items[..i]) + (if items[i].id != 0 then {items[i].id} else {})
  {
    var l := ReferencedIDs(items[..i + 1]);
    var r := ReferencedIDs(items[..i]) + (if items[i].id != 0 then {items[i].id} else {});
    forall id | id in l ensures id in r {
      var k :| 0 <= k < i + 1 && items[..i + 1][k].id != 0 && items[..i + 1][k].id == id;
      if k < i {
        assert items[..i][k] == items[..i + 1][k];
      }
    }
    forall id | id in r ensures id in l {
      if id in ReferencedIDs(items[..i]) {
        var k :| 0 <= k < i && items[..i][k].id != 0 && items[..i][k].id == id;
        assert items[..i + 1][k] == items[..i][k];
      } else {
        assert items[..i + 1][i] == items[i];
      }
    }
  }

  // ---------------------------------------------------------------------
  // HandleCronjob

  datatype CronAction = EnableCronjob | DisableCronjob

  /** The message published to the cron service. */
  datatype CronjobPayload = CronjobPayload(
    name: string, jobType: ParentType, action: CronAction, deleteList: seq<nat>, jobList: seq<CronjobItem>)

  /** The message enabling the workflow's reconciled cron jobs. */
  predicate EnablePayload(m: CronjobPayload, name: string, r: Reconciled)
  {
    m.name == name && m.jobType == WorkflowCronjob && m.action == EnableCronjob
    && ListsExactly(m.deleteList, r.deleted) && m.jobList == r.items
  }

  /** The common message queue. */
  class MsgQueue {
    var messages: seq<CronjobPayload>

    constructor()
      ensures messages == []
    {
      messages := [];
    }

    method Publish(m: CronjobPayload, faults: StoreFaults) returns (err: Option<string>)
      modifies this
      ensures err == faults(PublishCall)
      ensures messages == if err.None? then old(messages) + [m] else old(messages)
    {
      err := faults(PublishCall);
      if err.None? {
        messages := messages + [m];
      }
    }
  }

  class Workflow {
    var name: string
    var scheduleEnabled: bool
    var schedules: ScheduleCtrl?

    constructor(name: string, scheduleEnabled: bool, schedules: ScheduleCtrl?)
      ensures this.name == name && this.scheduleEnabled == scheduleEnabled && this.schedules == schedules
    {
      this.name := name;
      this.scheduleEnabled := scheduleEnabled;
      this.schedules := schedules;
    }
  }

  /**
   * HandleCronjob: a workflow without a schedule is left alone. Otherwise the
   * schedule is detached from the workflow and takes the workflow's switch;
   * an enabled schedule is reconciled and published with its deletions and
   * items, a disabled one is published as disabled and no cron job is touched.
   */
  method HandleCronjob(workflow: Workflow, store: CronjobColl, queue: MsgQueue, faults: StoreFaults)
    returns (err: Option<string>)
    modifies workflow, store, queue, workflow.schedules
    ensures old(workflow.schedules) == null ==>
      err.None? && workflow.schedules == null
      && store.records == old(store.records) && store.nextID == old(store.nextID)
      && queue.messages == old(queue.messages)
    ensures var s := old(workflow.schedules);
      s != null ==>
        workflow.schedules == null && s.enabled == old(workflow.scheduleEnabled)
        && (!s.enabled ==>
              store.records == old(store.records) && store.nextID == old(store.nextID)
              && s.items == old(s.items)
              && err == faults(PublishCall)
              && queue.messages == old(queue.messages)
                 + (if err.None? then [CronjobPayload(old(workflow.name), WorkflowCronjob, DisableCronjob, [], [])] else []))
        && (s.enabled ==>
              var r := Reconcile(old(store.records), old(store.nextID), old(s.items),
                                 Parent(old(workflow.name), WorkflowCronjob, ""), faults);
              store.records == r.records && store.nextID == r.nextID && s.items == r.items
              && (r.err.Some? ==> err == r.err && queue.messages == old(queue.messages))
              && (r.err.None? ==>
                    err == faults(PublishCall)
                    && (err.Some? ==> queue.messages == old(queue.messages))
                    && (err.None? ==>
                          |queue.messages| == |old(queue.messages)| + 1
                          && queue.messages[..|old(queue.messages)|] == old(queue.messages)
                          && EnablePayload(queue.messages[|old(queue.messages)|], old(workflow.name), r))))
    ensures workflow.name == old(workflow.name) && workflow.scheduleEnabled == old(workflow.scheduleEnabled)
  {
    var schedule := workflow.schedules;
    if schedule == null {
      return None;
    }
    workflow.schedules := null;
    schedule.enabled := workflow.scheduleEnabled;
    var payload := CronjobPayload(workflow.name, WorkflowCronjob, DisableCronjob, [], []);
    if schedule.enabled {
      var deleteList;
      deleteList, err := UpdateCronjob(store, schedule, Parent(workflow.name, WorkflowCronjob, ""), faults);
      if err.Some? {
        return err;
      }
      payload := CronjobPayload(workflow.name, WorkflowCronjob, EnableCronjob, deleteList, schedule.items);
    }
    err := queue.Publish(payload, faults);
  }
}
