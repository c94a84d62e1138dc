/** What no number of prunes goes below, over whole runs (controllers/snapshots.go). */
module Retention {
  import opened Cluster
  import opened Listing
  import opened Controllers
  import opened Runs
  import opened Separation
  import opened Pruning
  import opened Seeding
  import opened PruneRuns
  import opened Serializability

  /** The names of the snapshots that the service finds. */
  ghost function Names(store: Store, d: Key): set<string> {
    set key | key in store && key.kind == Snapshot && key.namespace == d.namespace
              && Matches(Selector(d), store[key].meta.labels) :: key.name
  }

  lemma InNames(store: Store, d: Key, name: string)
    ensures name in Names(store, d) <==> Selected(store, d.namespace, Selector(d), name)
  {
    hide Matches, Selector;
    if Selected(store, d.namespace, Selector(d), name) {
      assert Key(Snapshot, d.namespace, name) in store;
    }
  }

  /** The service finds a snapshot that was created in second `c` or later. */
  ghost predicate AsNew(store: Store, d: Key, c: nat) {
    exists name :: Selected(store, d.namespace, Selector(d), name)
        && store[Key(Snapshot, d.namespace, name)].meta.created >= c
  }

  function Min(a: int, b: int): int { if a < b then a else b }

  /** The number of snapshots has not dropped below `r`, unless it was below before, and the newest is as new. */
  ghost predicate KeptEnough(store: Store, store': Store, d: Key, r: int) {
    && |Names(store', d)| >= Min(|Names(store, d)|, r)
    && (r >= 1 ==> forall c: nat :: AsNew(store, d, c) ==> AsNew(store', d, c))
  }

  lemma EnoughTwice(a: Store, b: Store, c: Store, d: Key, r: int)
    requires KeptEnough(a, b, d, r) && KeptEnough(b, c, d, r)
    ensures KeptEnough(a, c, d, r)
  {
    hide AsNew;
  }

  lemma SubsetSize(a: set<string>, b: set<string>)
    requires a <= b
    ensures |a| <= |b|
  {
    assert b == a + (b - a);
  }

  /** Everything the service found it still finds. */
  ghost predicate Grows(store: Store, store': Store, d: Key) {
    forall name :: Selected(store, d.namespace, Selector(d), name) ==>
      && Selected(store', d.namespace, Selector(d), name)
      && store'[Key(Snapshot, d.namespace, name)].meta.created == store[Key(Snapshot, d.namespace, name)].meta.created
  }

  lemma GrowingIsEnough(store: Store, store': Store, d: Key, r: int)
    requires Grows(store, store', d)
    ensures KeptEnough(store, store', d, r)
  {
    hide Names, Selected;
    forall name | name in Names(store, d)
      ensures name in Names(store', d)
    {
      InNames(store, d, name);
      InNames(store', d, name);
    }
    SubsetSize(Names(store, d), Names(store', d));
  }

  // --------------------------------------------------------------------------- one deletion of a prune

  ghost predicate OnList(store: Store, d: Key, item: Item) {
    && Selected(store, d.namespace, Selector(d), item.name)
    && store[Key(Snapshot, d.namespace, item.name)].meta.created == item.created
  }

  /** The service finds all of its list that is still to come. */
  ghost predicate ListHolds(store: Store, d: Key, items: seq<Item>, i: nat) {
    && Distinct(items) && Sorted(items)
    && forall j :: i <= j < |items| ==> OnList(store, d, items[j])
  }

  function NamesOf(items: seq<Item>): set<string> {
    set i | 0 <= i < |items| :: items[i].name
  }

  lemma {:induction false} DistinctSize(items: seq<Item>)
    requires Distinct(items)
    ensures |NamesOf(items)| == |items|
  {
    if items == [] {
    } else {
      var rest := items[1..];
      assert forall i :: 0 <= i < |rest| ==> rest[i] == items[i + 1];
      DistinctSize(rest);
      assert NamesOf(items) == NamesOf(rest) + {items[0].name} by {
        forall name | name in NamesOf(items)
          ensures name in NamesOf(rest) + {items[0].name}
        {
          var i :| 0 <= i < |items| && items[i].name == name;
          if i > 0 {
            assert rest[i - 1].name == name;
          }
        }
      }
    }
  }

  /** Deleting the next on the list leaves what comes after it, which is as new. */
  lemma DeletionIsEnough(store: Store, d: Key, items: seq<Item>, i: nat, r: int)
    requires ListHolds(store, d, items, i) && i < |items| - r && 0 <= r && i < |items|
    ensures var store' := store - {SnapshotKey(d, items[i])};
            ListHolds(store', d, items, i + 1) && KeptEnough(store, store', d, r)
  {
    hide Selector, Matches, Names;
    var store', rest := store - {SnapshotKey(d, items[i])}, items[i + 1..];
    assert forall j :: 0 <= j < |rest| ==> rest[j] == items[i + 1 + j];
    DistinctSize(rest);
    forall name | name in NamesOf(rest)
      ensures name in Names(store', d)
    {
      var j :| 0 <= j < |rest| && rest[j].name == name;
      assert OnList(store', d, items[i + 1 + j]);
      InNames(store', d, name);
    }
    SubsetSize(NamesOf(rest), Names(store', d));
    if r >= 1 {
      var last := items[|items| - 1];
      forall c: nat | AsNew(store, d, c)
        ensures AsNew(store', d, c)
      {
        var name :| Selected(store, d.namespace, Selector(d), name)
            && store[Key(Snapshot, d.namespace, name)].meta.created >= c;
        if name == items[i].name {
          assert OnList(store, d, items[i]) && OnList(store', d, last) && items[i].created <= last.created;
          assert Selected(store', d.namespace, Selector(d), last.name);
        } else {
          assert Selected(store', d.namespace, Selector(d), name);
        }
      }
    }
  }

  // ------------------------------------------------------------------------------------ invariant

  /** No snapshot that another service finds is named like an automatic one of `d`. */
  ghost predicate NamedApart(store: Store, d: Key) {
    forall y: Key :: y.kind == DirectoryService && y.namespace == d.namespace && y != d ==> LabelsApart(store, y, d)
  }

  ghost predicate OffNames(pc: Pc, d: Key) {
    pc.At? && pc.stage.Prune? ==>
      forall i :: 0 <= i < |pc.stage.items| ==> !IsAutoSnapshot(d, SnapshotKey(d, pc.stage.items[i]))
  }

  ghost predicate NoneNamed(s: System, d: Key) {
    forall y :: y in s.threads && y != d && y.namespace == d.namespace ==> OffNames(s.threads[y], d)
  }

  predicate RetainsSpec(spec: Spec, r: int) {
    spec.ServiceSpec? ==> spec.schedule.retained >= r
  }

  ghost predicate PcHolds(store: Store, d: Key, pc: Pc, r: int) {
    && (pc.At? || pc.Creating? || pc.Updating? ==> RetainsSpec(pc.cr.spec, r))
    && (pc.At? && pc.stage.Prune? ==>
          pc.stage.index < |pc.stage.items| - r && ListHolds(store, d, pc.stage.items, pc.stage.index))
  }

  ghost predicate Inv(s: System, d: Key, r: int) {
    && NamedApart(s.world.store, d) && NoneForeign(s, d) && NoneNamed(s, d)
    && PcHolds(s.world.store, d, PcOf(s, d), r)
    && (d in s.world.store ==> RetainsSpec(s.world.store[d].spec, r))
  }

  /** Users keep the retained number at `r` or more and take none of the service's snapshots away; they may add
      some, but not one that another service is about to prune; and nobody gives a snapshot named like one of
      the service the labels of another service. */
  ghost predicate Permitted(tools: Tools, s: System, l: Label, d: Key, r: int) {
    && (!l.Step? && !l.Crash? ==>
          Grows(s.world.store, Outside(tools, s.world, l).store, d) && NoneForeign(Do(tools, s, l), d))
    && (l.Edit? && l.key == d ==> RetainsSpec(l.obj.spec, r))
    && (l.Edit? && IsAutoSnapshot(d, l.key) ==>
          forall y: Key :: y.kind == DirectoryService && y.namespace == d.namespace && y != d ==>
            !Matches(Selector(y), l.obj.meta.labels))
  }

  lemma StepNamedApart(w: World, d: Key, q: Key, pc: Pc, inp: Input)
    requires ThreadOk(w, q, pc) && d.kind == DirectoryService && NamedApart(w.store, d)
    ensures NamedApart(Perform(w, CallOf(q, pc), inp).world.store, d)
  {
    hide Perform, CallOf, Owns, Selected;
    forall y: Key, name | y.kind == DirectoryService && y.namespace == d.namespace && y != d
                          && Selected(Perform(w, CallOf(q, pc), inp).world.store, y.namespace, Selector(y), name)
      ensures !Owns(d, Key(Snapshot, y.namespace, name))
    {
      assert LabelsApart(w.store, y, d);
      StepKeepsLabels(w, y, d, q, pc, inp, name);
    }
  }

  // ---------------------------------------------------------------------------------- own steps

  lemma PruneIndex(d: Key, pc: Pc, reply: Reply)
    requires Ready(d.kind, pc) && !pc.Finished? && d.kind == DirectoryService
    ensures var next := Resume(d, pc, reply);
            next.At? && next.stage.Prune? ==>
              && pc.At? && next.cr == pc.cr && next.stage.index < |next.stage.items| - next.cr.spec.schedule.retained
              && (if pc.stage.Prune? then next.stage.items == pc.stage.items && next.stage.index == pc.stage.index + 1
                  else pc.stage.SnapList? && next.stage.index == 0)
  {
    hide Fresh, Resolve, Adjusted, Synchronised, SortByCreation;
    PruneListSource(d, pc, reply);
  }

  /** Unless it is pruning, a step only adds to what the service finds, and only under a name of its own. */
  lemma OwnGrows(w: World, d: Key, pc: Pc, inp: Input)
    requires ThreadOk(w, d, pc) && d.kind == DirectoryService && !(pc.At? && pc.stage.Prune?)
    ensures Grows(w.store, Perform(w, CallOf(d, pc), inp).world.store, d)
  {
    hide Perform, CallOf, Matches, Selector, Fresh, Adjusted, Target;
    var store := Perform(w, CallOf(d, pc), inp).world.store;
    forall name | Selected(w.store, d.namespace, Selector(d), name)
      ensures Selected(store, d.namespace, Selector(d), name)
      ensures store[Key(Snapshot, d.namespace, name)].meta.created
              == w.store[Key(Snapshot, d.namespace, name)].meta.created
    {
      StepEffect(w, d, pc, inp);
      StepPreserves(w, d, pc, inp, Key(Snapshot, d.namespace, name));
    }
  }

  lemma OwnForeign(w: World, d: Key, pc: Pc, inp: Input, other: Pc)
    requires ThreadOk(w, d, pc) && d.kind == DirectoryService && Foreign(w.store, other, d) && OffNames(other, d)
    ensures Foreign(Perform(w, CallOf(d, pc), inp).world.store, other, d)
  {
    hide Perform, CallOf, Matches, Selector, IsAutoSnapshot;
    var store := Perform(w, CallOf(d, pc), inp).world.store;
    if other.At? && other.stage.Prune? {
      forall i | 0 <= i < |other.stage.items|
        ensures !Selected(store, d.namespace, Selector(d), other.stage.items[i].name)
      {
        var key := SnapshotKey(d, other.stage.items[i]);
        if key in w.store {
          StepPreserves(w, d, pc, inp, key);
        } else {
          CreatedSnapshot(w, d, pc, inp, key);
        }
      }
    }
  }

  lemma OwnDeletion(w: World, d: Key, pc: Pc, inp: Input, r: int)
    requires ThreadOk(w, d, pc) && d.kind == DirectoryService && pc.At? && pc.stage.Prune? && 0 <= r
    requires pc.stage.index < |pc.stage.items| - r && ListHolds(w.store, d, pc.stage.items, pc.stage.index)
    ensures var store := Perform(w, CallOf(d, pc), inp).world.store;
            ListHolds(store, d, pc.stage.items, pc.stage.index + 1) && KeptEnough(w.store, store, d, r)
  {
    hide ListHolds, KeptEnough, Fresh, Adjusted, Target;
    var items, i, store := pc.stage.items, pc.stage.index, Perform(w, CallOf(d, pc), inp).world.store;
    assert CallOf(d, pc) == Delete(SnapshotKey(d, items[i]));
    if store == w.store {
      ListShorter(store, d, items, i);
      NothingLost(store, d, r);
    } else {
      assert store == w.store - {SnapshotKey(d, items[i])};
      DeletionIsEnough(w.store, d, items, i, r);
    }
  }

  lemma ListShorter(store: Store, d: Key, items: seq<Item>, i: nat)
    requires ListHolds(store, d, items, i)
    ensures ListHolds(store, d, items, i + 1)
  {
  }

  lemma NothingLost(store: Store, d: Key, r: int)
    ensures KeptEnough(store, store, d, r)
  {
  }

  lemma NewList(w: World, d: Key, pc: Pc, inp: Input)
    requires ThreadOk(w, d, pc) && d.kind == DirectoryService && pc.At? && pc.stage.SnapList?
    ensures var a := Perform(w, CallOf(d, pc), inp);
            var next := Resume(d, pc, a.reply);
            && a.world == w
            && (next.At? && next.stage.Prune? ==> ListHolds(w.store, d, next.stage.items, 0))
  {
    hide Resume, Selector, SortByCreation, Sorted, Distinct, Fresh, Adjusted, Target;
    PruneListAfter(w, d, pc, inp);
    assert CallOf(d, pc) == List(d.namespace, Selector(d));
    var next := Resume(d, pc, Perform(w, CallOf(d, pc), inp).reply);
    if next.At? && next.stage.Prune? {
      hide Perform, CallOf;
      SortedListing(w.store, d.namespace, Selector(d), inp.listing);
      ListedHolds(w.store, d, next.stage.items);
    }
  }

  lemma ListedHolds(store: Store, d: Key, items: seq<Item>)
    requires IsListing(store, d.namespace, Selector(d), items) && Sorted(items)
    ensures ListHolds(store, d, items, 0)
  {
    hide Selector, Selected;
  }

  lemma OwnPc(w: World, d: Key, pc: Pc, inp: Input, r: int)
    requires ThreadOk(w, d, pc) && d.kind == DirectoryService && PcHolds(w.store, d, pc, r) && 0 <= r
    requires d in w.store ==> RetainsSpec(w.store[d].spec, r)
    ensures var a := Perform(w, CallOf(d, pc), inp);
            && PcHolds(a.world.store, d, Resume(d, pc, a.reply), r)
            && (d in a.world.store ==> RetainsSpec(a.world.store[d].spec, r))
            && KeptEnough(w.store, a.world.store, d, r)
  {
    hide Perform, CallOf, Resume, ListHolds, KeptEnough, Grows;
    var a := Perform(w, CallOf(d, pc), inp);
    CrSpecAfter(w, d, pc, inp);
    PruneIndex(d, pc, a.reply);
    if pc.At? && pc.stage.Prune? {
      OwnDeletion(w, d, pc, inp, r);
    } else {
      OwnGrows(w, d, pc, inp);
      GrowingIsEnough(w.store, a.world.store, d, r);
      if pc.At? && pc.stage.SnapList? {
        NewList(w, d, pc, inp);
      }
    }
  }

  lemma OwnStep(tools: Tools, s: System, l: Label, d: Key, r: int)
    requires Sound(s) && d.kind == DirectoryService && Inv(s, d, r) && 0 <= r && l.Step? && l.req == d
    ensures Inv(Do(tools, s, l), d, r) && KeptEnough(s.world.store, Do(tools, s, l).world.store, d, r)
  {
    hide Perform, CallOf, Resume, KeptEnough, NamedApart, Foreign, OffNames, ListHolds;
    var pc, s' := PcOf(s, d), Do(tools, s, l);
    assert ThreadOk(s.world, d, pc);
    OwnPc(s.world, d, pc, l.inp, r);
    StepNamedApart(s.world, d, d, pc, l.inp);
    forall y | y in s'.threads && y != d && y.namespace == d.namespace
      ensures Foreign(s'.world.store, s'.threads[y], d)
    {
      OwnForeign(s.world, d, pc, l.inp, s.threads[y]);
    }
  }

  // ---------------------------------------------------------------------------------- others

  lemma HoldsAfter(store: Store, store': Store, d: Key, pc: Pc, r: int)
    requires Grows(store, store', d) && PcHolds(store, d, pc, r)
    ensures PcHolds(store', d, pc, r) && KeptEnough(store, store', d, r)
  {
    hide Selected, Sorted, KeptEnough;
    GrowingIsEnough(store, store', d, r);
  }

  lemma SameGrows(store: Store, store': Store, d: Key)
    requires SameSelection(store, store', d)
    ensures Grows(store, store', d)
  {
    hide Selected, SameSelection;
    SameFinds(store, store', d);
  }

  lemma OthersNamed(w: World, d: Key, y: Key, pc: Pc, inp: Input)
    requires ThreadOk(w, y, pc) && d.kind == DirectoryService && y != d && y.namespace == d.namespace
    requires NamedApart(w.store, d) && OffNames(pc, d)
    ensures OffNames(Resume(y, pc, Perform(w, CallOf(y, pc), inp).reply), d)
  {
    hide Perform, CallOf, Resume, Matches, Selector, SortByCreation;
    PruneListAfter(w, y, pc, inp);
    var next := Resume(y, pc, Perform(w, CallOf(y, pc), inp).reply);
    if next.At? && next.stage.Prune? && pc.At? && pc.stage.SnapList? {
      SortedListing(w.store, y.namespace, Selector(y), inp.listing);
      assert LabelsApart(w.store, y, d);
      forall i | 0 <= i < |next.stage.items|
        ensures !IsAutoSnapshot(d, SnapshotKey(d, next.stage.items[i]))
      {
        assert Selected(w.store, y.namespace, Selector(y), next.stage.items[i].name);
      }
    }
  }

  lemma OtherStep(tools: Tools, s: System, l: Label, d: Key, r: int)
    requires Sound(s) && d.kind == DirectoryService && Inv(s, d, r) && l.Step? && l.req != d
    ensures Inv(Do(tools, s, l), d, r) && KeptEnough(s.world.store, Do(tools, s, l).world.store, d, r)
  {
    hide Perform, CallOf, Resume, KeptEnough, NamedApart, NoneForeign, OffNames, PcHolds, SameSelection, Grows;
    var pc, s' := PcOf(s, l.req), Do(tools, s, l);
    assert ThreadOk(s.world, l.req, pc);
    OthersSelect(tools, s, l, d);
    SameGrows(s.world.store, s'.world.store, d);
    HoldsAfter(s.world.store, s'.world.store, d, PcOf(s, d), r);
    StepNamedApart(s.world, d, l.req, pc, l.inp);
    if l.req.namespace == d.namespace {
      StartOffNames(d);
      OthersNamed(s.world, d, l.req, pc, l.inp);
    }
    if d in s.world.store {
      StepPreserves(s.world, l.req, pc, l.inp, d);
    } else {
      hide Fresh, Adjusted;
      StepEffect(s.world, l.req, pc, l.inp);
    }
  }

  lemma StartOffNames(d: Key)
    ensures OffNames(Start, d)
  {
  }

  lemma OutsideNamedApart(tools: Tools, s: System, l: Label, d: Key, r: int)
    requires !l.Step? && !l.Crash? && d.kind == DirectoryService && NamedApart(s.world.store, d)
    requires Permitted(tools, s, l, d, r)
    ensures NamedApart(Outside(tools, s.world, l).store, d)
  {
    var w := s.world;
    hide Outside, Grows, NoneForeign, Selector, Matches, IsDataClaim, IsAutoSnapshot;
    forall y: Key, name | y.kind == DirectoryService && y.namespace == d.namespace && y != d
                          && Selected(Outside(tools, w, l).store, y.namespace, Selector(y), name)
      ensures !Owns(d, Key(Snapshot, y.namespace, name))
    {
      var key := Key(Snapshot, y.namespace, name);
      assert LabelsApart(w.store, y, d);
      if Touches(l, key) {
        LabelsEdited(tools, w, l, key);
      } else {
        OutsideKeeps(tools, w, l, key);
      }
      assert Selected(w.store, y.namespace, Selector(y), name) ==> !Owns(d, key);
      SnapshotOwned(d, key);
    }
  }

  lemma SnapshotOwned(d: Key, key: Key)
    requires d.kind == DirectoryService && key.kind == Snapshot
    ensures Owns(d, key) <==> IsAutoSnapshot(d, key)
  {
  }

  lemma LabelsEdited(tools: Tools, w: World, l: Label, key: Key)
    requires Touches(l, key) && key in Outside(tools, w, l).store
    ensures || (key in w.store && Outside(tools, w, l).store[key] == w.store[key])
            || (l.Edit? && Outside(tools, w, l).store[key].meta.labels == l.obj.meta.labels)
  {
  }

  lemma OutsideLabel(tools: Tools, s: System, l: Label, d: Key, r: int)
    requires d.kind == DirectoryService && Inv(s, d, r) && !l.Step? && !l.Crash? && Permitted(tools, s, l, d, r)
    ensures Inv(Do(tools, s, l), d, r) && KeptEnough(s.world.store, Do(tools, s, l).world.store, d, r)
  {
    hide KeptEnough, NamedApart, NoneForeign, OffNames, PcHolds, Grows, JobRan, Provisioned;
    var s' := Do(tools, s, l);
    OutsideNamedApart(tools, s, l, d, r);
    HoldsAfter(s.world.store, s'.world.store, d, PcOf(s, d), r);
    if !Touches(l, d) {
      hide Outside;
      OutsideKeeps(tools, s.world, l, d);
    }
  }

  lemma CrashLabel(s: System, d: Key, r: int)
    requires Inv(s, d, r)
    ensures Inv(s.(threads := map[]), d, r) && KeptEnough(s.world.store, s.world.store, d, r)
  {
    hide KeptEnough, NamedApart, Foreign;
    NothingLost(s.world.store, d, r);
  }

  ghost predicate AllPermitted(tools: Tools, s: System, run: seq<Label>, d: Key, r: int)
    decreases |run|
  {
    run != [] ==> Permitted(tools, s, run[0], d, r) && AllPermitted(tools, Do(tools, s, run[0]), run[1..], d, r)
  }

  /** Over every run, through any number of reconciles, prunes that fail half-way, restarts, and edits that keep
      the retained number at `r` or more: the service never has fewer snapshots than `r`, unless it had fewer at
      the start and then not fewer than those; and with `r` at least one, its newest snapshot is never older
      than it was, so what `$(latest)` stands for never goes back in time. */
  lemma {:induction false} RetentionHolds(tools: Tools, s: System, run: seq<Label>, d: Key, r: int)
    requires Sound(s) && d.kind == DirectoryService && 0 <= r && Inv(s, d, r) && AllPermitted(tools, s, run, d, r)
    ensures KeptEnough(s.world.store, Exec(tools, s, run).world.store, d, r)
    decreases |run|
  {
    hide Sound, Inv, Permitted, KeptEnough, Move, Outside;
    if run == [] {
      NothingLost(s.world.store, d, r);
    } else {
      var l, s' := run[0], Do(tools, s, run[0]);
      SoundKept(tools, s, l);
      if l.Step? && l.req == d {
        OwnStep(tools, s, l, d, r);
      } else if l.Step? {
        OtherStep(tools, s, l, d, r);
      } else if l.Crash? {
        CrashLabel(s, d, r);
      } else {
        OutsideLabel(tools, s, l, d, r);
      }
      RetentionHolds(tools, s', run[1..], d, r);
      EnoughTwice(s.world.store, s'.world.store, Exec(tools, s', run[1..]).world.store, d, r);
    }
  }
}
