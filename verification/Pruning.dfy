/** What pruning deletes and what it leaves, whichever deletions fail (controllers/snapshots.go). */
module Pruning {
  import opened Cluster
  import opened Listing
  import opened Controllers

  datatype Stop = Stop(pc: Pc, world: World)

  /** A reconcile going on by itself, with one input for each of its calls. */
  ghost function Drive(w: World, req: Key, pc: Pc, inputs: seq<Input>): Stop
    requires Ready(req.kind, pc)
    decreases |inputs|
  {
    if inputs == [] || pc.Finished? then Stop(pc, w)
    else
      var a := Perform(w, CallOf(req, pc), inputs[0]);
      Drive(a.world, req, Resume(req, pc, a.reply), inputs[1..])
  }

  function SnapshotKey(d: Key, item: Item): Key {
    Key(Snapshot, d.namespace, item.name)
  }

  /** The listed snapshots whose deletion was not refused; the k-th input is about the k-th item. */
  function Deleted(d: Key, items: seq<Item>, inputs: seq<Input>): set<Key>
    requires |inputs| <= |items|
  {
    set j | 0 <= j < |inputs| && !inputs[j].fate.Refused? :: SnapshotKey(d, items[j])
  }

  /** What is left of the list. */
  function Remaining(items: seq<Item>, inputs: seq<Input>): seq<Item>
    requires |inputs| <= |items|
  {
    if inputs == [] then items
    else (if inputs[0].fate.Refused? then [items[0]] else []) + Remaining(items[1..], inputs[1..])
  }

  function Deletions(inputs: seq<Input>): nat {
    if inputs == [] then 0 else (if inputs[0].fate.Refused? then 0 else 1) + Deletions(inputs[1..])
  }

  lemma {:induction false} RemainingLength(items: seq<Item>, inputs: seq<Input>)
    requires |inputs| <= |items|
    ensures |Remaining(items, inputs)| == |items| - Deletions(inputs)
    ensures Deletions(inputs) <= |inputs|
  {
    if inputs == [] {
    } else {
      RemainingLength(items[1..], inputs[1..]);
    }
  }

  lemma {:induction false} RemainingItems(items: seq<Item>, inputs: seq<Input>, x: Item)
    requires |inputs| <= |items|
    ensures x in Remaining(items, inputs) <==>
            exists j :: 0 <= j < |items| && items[j] == x && (j >= |inputs| || inputs[j].fate.Refused?)
  {
    if inputs == [] {
    } else {
      var rest := Remaining(items[1..], inputs[1..]);
      RemainingItems(items[1..], inputs[1..], x);
      if x in Remaining(items, inputs) && !(inputs[0].fate.Refused? && items[0] == x) {
        assert x in rest;
        var j :| 0 <= j < |items[1..]| && items[1..][j] == x && (j >= |inputs[1..]| || inputs[1..][j].fate.Refused?);
        assert items[j + 1] == x;
      }
      if j :| 0 <= j < |items| && items[j] == x && (j >= |inputs| || inputs[j].fate.Refused?) {
        if j > 0 {
          assert items[1..][j - 1] == x;
          assert x in rest;
        }
      }
    }
  }

  lemma {:induction false} RemainingDistinct(items: seq<Item>, inputs: seq<Input>)
    requires |inputs| <= |items| && Distinct(items)
    ensures Distinct(Remaining(items, inputs))
  {
    if inputs == [] {
    } else {
      var rest := Remaining(items[1..], inputs[1..]);
      assert forall j :: 0 <= j < |items[1..]| ==> items[1..][j] == items[j + 1];
      RemainingDistinct(items[1..], inputs[1..]);
      forall k | 0 <= k < |rest|
        ensures rest[k].name != items[0].name
      {
        RemainingItems(items[1..], inputs[1..], rest[k]);
        assert rest[k] in rest;
      }
    }
  }

  lemma RemainingSelected(store: Store, d: Key, items: seq<Item>, inputs: seq<Input>, k: nat)
    requires IsListing(store, d.namespace, Selector(d), items) && |inputs| <= |items| && k < |Remaining(items, inputs)|
    ensures var x, store' := Remaining(items, inputs)[k], store - Deleted(d, items, inputs);
            && Selected(store', d.namespace, Selector(d), x.name)
            && SnapshotKey(d, x) in store' && store'[SnapshotKey(d, x)].meta.created == x.created
  {
    hide Selector, Matches, Remaining;
    var x := Remaining(items, inputs)[k];
    RemainingItems(items, inputs, x);
    assert x in Remaining(items, inputs);
    var j :| 0 <= j < |items| && items[j] == x && (j >= |inputs| || inputs[j].fate.Refused?);
    assert Selected(store, d.namespace, Selector(d), items[j].name);
    assert forall m :: 0 <= m < |inputs| && items[m].name == items[j].name ==> m == j;
  }

  lemma SelectedRemains(store: Store, d: Key, items: seq<Item>, inputs: seq<Input>, name: string)
    requires IsListing(store, d.namespace, Selector(d), items) && |inputs| <= |items|
    requires Selected(store - Deleted(d, items, inputs), d.namespace, Selector(d), name)
    ensures exists k :: 0 <= k < |Remaining(items, inputs)| && Remaining(items, inputs)[k].name == name
  {
    hide Selector, Matches, Remaining;
    var gone := Deleted(d, items, inputs);
    assert forall j :: 0 <= j < |inputs| && !inputs[j].fate.Refused? ==> SnapshotKey(d, items[j]) in gone;
    assert Selected(store, d.namespace, Selector(d), name);
    var j :| 0 <= j < |items| && items[j].name == name;
    RemainingItems(items, inputs, items[j]);
    assert items[j] in Remaining(items, inputs);
  }

  /** After the deletions, the remaining items are the listing. */
  lemma RemainingListed(store: Store, d: Key, items: seq<Item>, inputs: seq<Input>)
    requires IsListing(store, d.namespace, Selector(d), items) && |inputs| <= |items|
    ensures IsListing(store - Deleted(d, items, inputs), d.namespace, Selector(d), Remaining(items, inputs))
  {
    hide Selector, Selected, Deleted, Remaining;
    var left, store' := Remaining(items, inputs), store - Deleted(d, items, inputs);
    RemainingDistinct(items, inputs);
    forall k | 0 <= k < |left|
      ensures Selected(store', d.namespace, Selector(d), left[k].name)
      ensures SnapshotKey(d, left[k]) in store' && store'[SnapshotKey(d, left[k])].meta.created == left[k].created
    {
      RemainingSelected(store, d, items, inputs, k);
    }
    forall name | Selected(store', d.namespace, Selector(d), name)
      ensures exists k :: 0 <= k < |left| && left[k].name == name
    {
      SelectedRemains(store, d, items, inputs, name);
    }
  }

  // ---------------------------------------------------------------------------------- the loop

  /** How many of `n` listed snapshots a prune asks to delete before it leaves the loop or the listing. */
  function Surplus(cr: Object, n: nat): (k: nat)
    requires Typed(DirectoryService, cr)
    ensures k <= n
  {
    if cr.spec.schedule.retained < 0 then n
    else if n > cr.spec.schedule.retained then n - cr.spec.schedule.retained
    else 0
  }

  /** Where the loop ends: a negative number of retained snapshots takes it past the listing. */
  function LoopEnd(cr: Object): Pc
    requires Typed(DirectoryService, cr)
  {
    if cr.spec.schedule.retained >= 0 then At(Connect, cr) else Finished(Panicked(IndexOutOfRange))
  }

  /** The loop of a prune that starts at index `i`, failures included. */
  lemma {:induction false} PruneLoop(w: World, d: Key, cr: Object, items: seq<Item>, i: nat, inputs: seq<Input>)
    requires d.kind == DirectoryService && Typed(DirectoryService, cr)
    requires Distinct(items) && i <= |items|
    requires forall j :: i <= j < |items| ==> SnapshotKey(d, items[j]) in w.store
    requires |inputs| == if Surplus(cr, |items|) > i then Surplus(cr, |items|) - i else 0
    ensures var stop := Drive(w, d, NextPrune(cr, items, i), inputs);
            stop.pc == LoopEnd(cr) && stop.world.store == w.store - Deleted(d, items[i..], inputs)
    decreases |inputs|
  {
    if inputs == [] {
      assert w.store - Deleted(d, items[i..], inputs) == w.store;
    } else {
      hide Drive, Deleted, NextPrune;
      var key := SnapshotKey(d, items[i]);
      var w' := Perform(w, Delete(key), inputs[0]).world;
      var rest := inputs[1..];
      assert forall j :: i + 1 <= j < |items| ==> SnapshotKey(d, items[j]) != key;
      PruneLoop(w', d, cr, items, i + 1, rest);
      DeletedStep(d, items, i, inputs);
      assert w'.store == w.store - (if inputs[0].fate.Refused? then {} else {key});
      assert w'.store - Deleted(d, items[i + 1..], rest) == w.store - Deleted(d, items[i..], inputs);
      PruneStep(w, d, cr, items, i, inputs);
    }
  }

  /** One turn of the loop, whatever the deletion answers. */
  lemma PruneStep(w: World, d: Key, cr: Object, items: seq<Item>, i: nat, inputs: seq<Input>)
    requires d.kind == DirectoryService && Typed(DirectoryService, cr)
    requires i < |items| && i < |items| - cr.spec.schedule.retained && inputs != []
    ensures Drive(w, d, NextPrune(cr, items, i), inputs)
            == Drive(Perform(w, Delete(SnapshotKey(d, items[i])), inputs[0]).world, d, NextPrune(cr, items, i + 1),
                inputs[1..])
  {
    hide Perform, NextPrune, Fresh, Synchronised, Upserted, Looked;
    var pc := NextPrune(cr, items, i);
    assert pc == At(Prune(items, i), cr) by { NextPruneIs(cr, items, i); }
    assert CallOf(d, pc) == Delete(SnapshotKey(d, items[i]));
  }

  lemma NextPruneIs(cr: Object, items: seq<Item>, i: nat)
    requires Typed(DirectoryService, cr) && i < |items| && i < |items| - cr.spec.schedule.retained
    ensures NextPrune(cr, items, i) == At(Prune(items, i), cr)
  {
  }

  lemma DeletedStep(d: Key, items: seq<Item>, i: nat, inputs: seq<Input>)
    requires inputs != [] && i + |inputs| <= |items|
    ensures Deleted(d, items[i..], inputs)
            == (if inputs[0].fate.Refused? then {}
                else {SnapshotKey(d, items[i])}) + Deleted(d, items[i + 1..], inputs[1..])
  {
    var all, tail := Deleted(d, items[i..], inputs), Deleted(d, items[i + 1..], inputs[1..]);
    assert items[i..][0] == items[i];
    forall key | key in all
      ensures key in tail || (!inputs[0].fate.Refused? && key == SnapshotKey(d, items[i]))
    {
      var j :| 0 <= j < |inputs| && !inputs[j].fate.Refused? && SnapshotKey(d, items[i..][j]) == key;
      if j > 0 {
        assert inputs[1..][j - 1] == inputs[j] && items[i + 1..][j - 1] == items[i..][j];
      }
    }
    forall key | key in tail
      ensures key in all
    {
      var j :| 0 <= j < |inputs[1..]| && !inputs[1..][j].fate.Refused? && SnapshotKey(d, items[i + 1..][j]) == key;
      assert inputs[j + 1] == inputs[1..][j] && items[i..][j + 1] == items[i + 1..][j];
    }
    if !inputs[0].fate.Refused? {
      assert SnapshotKey(d, items[i..][0]) in all;
    }
  }

  /** Pruning from any listing of the service's snapshots: it makes one deletion for each snapshot beyond
      `retained`, goes on whatever they answer, and leaves the rest of the list and the refused ones; there
      are never fewer than the smaller of the list and `retained`, and no snapshot that was up for deletion
      is younger than one that was not. */
  lemma PruneLeaves(w: World, d: Key, cr: Object, raw: seq<Item>, inputs: seq<Input>)
    requires d.kind == DirectoryService && Typed(DirectoryService, cr) && cr.spec.schedule.retained >= 0
    requires IsListing(w.store, d.namespace, Selector(d), raw)
    requires |inputs| == Surplus(cr, |raw|)
    ensures |SortByCreation(raw)| == |raw|
    ensures var items := SortByCreation(raw);
            var pc := Scheduled(SnapList, cr, Listed(raw));
            var stop := Drive(w, d, pc, inputs);
            var left := Remaining(items, inputs);
            && stop.pc == At(Connect, cr)
            && IsListing(stop.world.store, d.namespace, Selector(d), left)
            && |left| == |raw| - Deletions(inputs)
            && (|left| >= |raw| || |left| >= cr.spec.schedule.retained)
            && (forall key :: key in stop.world.store ==> key in w.store && stop.world.store[key] == w.store[key])
            && (forall key :: key in w.store && key !in stop.world.store ==> key in Deleted(d, items, inputs))
            && (forall i, j :: 0 <= i < |inputs| <= j < |items| ==> items[i].created <= items[j].created)
  {
    hide Selector, Drive, Deleted, Remaining, Deletions, SortByCreation, IsListing;
    var items := SortByCreation(raw);
    SortSorts(raw);
    SortedListing(w.store, d.namespace, Selector(d), raw);
    ListedAreStored(w.store, d, items);
    assert Distinct(items) by { ListedOnce(w.store, d, items); }
    PruneLoop(w, d, cr, items, 0, inputs);
    assert items[0..] == items;
    RemainingListed(w.store, d, items, inputs);
    RemainingLength(items, inputs);
  }

  /** A prune whose deletions all succeed leaves exactly the youngest `retained` snapshots, clearing
      whatever earlier prunes left behind. */
  lemma CleanPrune(w: World, d: Key, cr: Object, raw: seq<Item>, inputs: seq<Input>)
    requires d.kind == DirectoryService && Typed(DirectoryService, cr) && cr.spec.schedule.retained >= 0
    requires IsListing(w.store, d.namespace, Selector(d), raw)
    requires |inputs| == Surplus(cr, |raw|)
    requires forall i :: 0 <= i < |inputs| ==> !inputs[i].fate.Refused?
    ensures |inputs| <= |SortByCreation(raw)|
    ensures IsListing(Drive(w, d, Scheduled(SnapList, cr, Listed(raw)), inputs).world.store, d.namespace, Selector(d),
                      SortByCreation(raw)[|inputs|..])
  {
    hide Selector, Scheduled, Drive;
    PruneLeaves(w, d, cr, raw, inputs);
    AllDeleted(SortByCreation(raw), inputs);
  }

  lemma {:induction false} AllDeleted(items: seq<Item>, inputs: seq<Input>)
    requires |inputs| <= |items| && forall i :: 0 <= i < |inputs| ==> !inputs[i].fate.Refused?
    ensures Remaining(items, inputs) == items[|inputs|..]
  {
    if inputs == [] {
    } else {
      var rest, others := items[1..], inputs[1..];
      assert forall i :: 0 <= i < |others| ==> others[i] == inputs[i + 1];
      assert Remaining(items, inputs) == Remaining(rest, others);
      hide Remaining;
      AllDeleted(rest, others);
      assert rest[|others|..] == items[|inputs|..];
    }
  }

  /** The loop stays within the listing exactly when `retained` is not negative. With a negative count it asks
      for the deletion of every snapshot, so none whose deletion is not refused is left, and then panics. */
  lemma NegativeRetentionPanics(w: World, d: Key, cr: Object, raw: seq<Item>, inputs: seq<Input>)
    requires d.kind == DirectoryService && Typed(DirectoryService, cr)
    requires IsListing(w.store, d.namespace, Selector(d), raw) && |inputs| == Surplus(cr, |raw|)
    ensures |SortByCreation(raw)| == |raw|
    ensures var items := SortByCreation(raw);
            var stop := Drive(w, d, Scheduled(SnapList, cr, Listed(raw)), inputs);
            && (stop.pc == At(Connect, cr) <==> cr.spec.schedule.retained >= 0)
            && (stop.pc == Finished(Panicked(IndexOutOfRange)) <==> cr.spec.schedule.retained < 0)
            && stop.world.store == w.store - Deleted(d, items, inputs)
            && (cr.spec.schedule.retained < 0 && (forall i :: 0 <= i < |inputs| ==> !inputs[i].fate.Refused?) ==>
                  forall name :: !Selected(stop.world.store, d.namespace, Selector(d), name))
  {
    hide Selector, Matches, Drive, Deleted, Remaining, SortByCreation;
    var items := SortByCreation(raw);
    SortSorts(raw);
    SortedListing(w.store, d.namespace, Selector(d), raw);
    ListedAreStored(w.store, d, items);
    PruneLoop(w, d, cr, items, 0, inputs);
    assert items[0..] == items;
    if cr.spec.schedule.retained < 0 && forall i :: 0 <= i < |inputs| ==> !inputs[i].fate.Refused? {
      AllDeleted(items, inputs);
      RemainingListed(w.store, d, items, inputs);
    }
  }

  lemma ListedOnce(store: Store, d: Key, items: seq<Item>)
    requires IsListing(store, d.namespace, Selector(d), items)
    ensures Distinct(items)
  {
  }

  lemma ListedAreStored(store: Store, d: Key, items: seq<Item>)
    requires IsListing(store, d.namespace, Selector(d), items)
    ensures forall j :: 0 <= j < |items| ==> SnapshotKey(d, items[j]) in store
  {
    hide Selector;
    forall j | 0 <= j < |items|
      ensures SnapshotKey(d, items[j]) in store
    {
      assert Selected(store, d.namespace, Selector(d), items[j].name);
    }
  }

  /** With `retained` at least one, a prune does not change how young the youngest snapshot is, so
      `$(latest)` resolves to one created in the same second before and after. */
  lemma PruneKeepsLatest(w: World, d: Key, cr: Object, raw: seq<Item>, inputs: seq<Input>, x: string, y: string)
    requires d.kind == DirectoryService && Typed(DirectoryService, cr) && cr.spec.schedule.retained >= 1
    requires IsListing(w.store, d.namespace, Selector(d), raw)
    requires |inputs| == Surplus(cr, |raw|)
    requires IsNewest(w.store, d.namespace, Selector(d), x)
    ensures var store := Drive(w, d, Scheduled(SnapList, cr, Listed(raw)), inputs).world.store;
            && (exists name :: IsNewest(store, d.namespace, Selector(d), name))
            && (IsNewest(store, d.namespace, Selector(d), y) ==>
                  && IsNewest(w.store, d.namespace, Selector(d), y)
                  && store[Key(Snapshot, d.namespace, y)].meta.created
                       == w.store[Key(Snapshot, d.namespace, x)].meta.created)
  {
    hide Selector, Scheduled, Drive, Deleted, IsListing, IsNewest, Remaining, SortByCreation, Sorted;
    PruneLeaves(w, d, cr, raw, inputs);
    SortedListing(w.store, d.namespace, Selector(d), raw);
    NotEmpty(w.store, d.namespace, Selector(d), raw, x);
    var items := SortByCreation(raw);
    LastIsNewest(w.store, d.namespace, Selector(d), items);
    RemainingItems(items, inputs, items[|items| - 1]);
    var stop := Drive(w, d, Scheduled(SnapList, cr, Listed(raw)), inputs);
    NewestStays(w.store, stop.world.store, d.namespace, Selector(d),
                Remaining(items, inputs), items[|items| - 1], x, y);
  }

  lemma NotEmpty(store: Store, namespace: string, selector: Labels, items: seq<Item>, x: string)
    requires IsListing(store, namespace, selector, items) && IsNewest(store, namespace, selector, x)
    ensures items != []
  {
  }

  lemma NewestStays(
      store: Store, store': Store, namespace: string, selector: Labels, left: seq<Item>, last: Item, x: string,
          y: string)
    requires forall key :: key in store' ==> key in store && store'[key] == store[key]
    requires IsListing(store', namespace, selector, left) && last in left
    requires IsNewest(store, namespace, selector, last.name) && IsNewest(store, namespace, selector, x)
    ensures IsNewest(store', namespace, selector, last.name)
    ensures IsNewest(store', namespace, selector, y) ==>
              && IsNewest(store, namespace, selector, y)
              && store'[Key(Snapshot, namespace, y)].meta.created == store[Key(Snapshot, namespace, x)].meta.created
  {
    hide Matches;
    assert Selected(store', namespace, selector, last.name);
  }
}
