/** Pruning among everything else that goes on: what one prune leaves while other reconciles interleave, and
    what no number of prunes ever goes below (controllers/snapshots.go). */
module PruneRuns {
  import opened Cluster
  import opened Listing
  import opened Controllers
  import opened Runs
  import opened Pruning
  import opened Seeding

  // ------------------------------------------------------------------------- one prune among others

  /** The inputs of the steps of `d`, in order. */
  function Tries(run: seq<Label>, d: Key): seq<Input> {
    if run == [] then []
    else (if run[0].Step? && run[0].req == d then [run[0].inp] else []) + Tries(run[1..], d)
  }

  /** The operator does not restart, and users leave the service's snapshots alone. */
  ghost predicate LeftAlone(tools: Tools, s: System, run: seq<Label>, d: Key)
    decreases |run|
  {
    run != [] ==>
      && !run[0].Crash?
      && (!run[0].Step? ==> SameSelection(s.world.store, Outside(tools, s.world, run[0]).store, d))
      && LeftAlone(tools, Do(tools, s, run[0]), run[1..], d)
  }

  /** The prune stands at index `i`; what the service finds is `left`, whose deletion was refused, and the rest
      of the list. */
  ghost predicate PruneAt(s: System, d: Key, cr: Object, items: seq<Item>, i: nat, left: seq<Item>)
    requires Typed(DirectoryService, cr)
  {
    && i <= |items| && PcOf(s, d) == NextPrune(cr, items, i)
    && IsListing(s.world.store, d.namespace, Selector(d), left + items[i..])
    && NoneForeign(s, d)
  }

  lemma ListingAfter(store: Store, store': Store, d: Key, items: seq<Item>)
    requires SameSelection(store, store', d) && IsListing(store, d.namespace, Selector(d), items)
    ensures IsListing(store', d.namespace, Selector(d), items)
  {
    hide IsListing, SameSelection;
    SameFinds(store, store', d);
    ListingDepends(store, store', d.namespace, Selector(d), items);
  }

  lemma OtherLabel(tools: Tools, s: System, l: Label, d: Key, cr: Object, items: seq<Item>, i: nat, left: seq<Item>)
    requires Sound(s) && d.kind == DirectoryService && Typed(DirectoryService, cr) && PruneAt(s, d, cr, items, i, left)
    requires !l.Crash? && !(l.Step? && l.req == d)
    requires !l.Step? ==> SameSelection(s.world.store, Outside(tools, s.world, l).store, d)
    ensures PruneAt(Do(tools, s, l), d, cr, items, i, left)
  {
    hide IsListing, SameFind, Foreign, NextPrune, Outside, Perform, CallOf, Resume, Sound;
    var s' := Do(tools, s, l);
    if l.Step? {
      OthersSelect(tools, s, l, d);
    } else {
      ForeignAfter(tools, s, l, d);
    }
    ListingAfter(s.world.store, s'.world.store, d, left + items[i..]);
  }

  /** Steps of others change nothing about what the service finds, nor get its snapshots on their lists. */
  lemma OthersSelect(tools: Tools, s: System, l: Label, d: Key)
    requires Sound(s) && d.kind == DirectoryService && l.Step? && l.req != d && NoneForeign(s, d)
    ensures SameSelection(s.world.store, Do(tools, s, l).world.store, d)
    ensures NoneForeign(Do(tools, s, l), d)
  {
    hide Perform, CallOf, Resume, SameFind, Foreign;
    var pc, s' := PcOf(s, l.req), Do(tools, s, l);
    assert ThreadOk(s.world, l.req, pc);
    StartIsForeign(s.world.store, d);
    forall name
      ensures SameFind(s.world.store, s'.world.store, d, name)
    {
      OthersFind(s.world, d, l.req, pc, l.inp, name);
    }
    if l.req.namespace == d.namespace {
      OthersList(s.world, d, l.req, pc, l.inp);
    }
    forall y | y in s'.threads && y != d && y.namespace == d.namespace
      ensures Foreign(s'.world.store, s'.threads[y], d)
    {
      ForeignDepends(s.world.store, s'.world.store, s'.threads[y], d);
    }
  }

  lemma ForeignAfter(tools: Tools, s: System, l: Label, d: Key)
    requires !l.Step? && !l.Crash? && NoneForeign(s, d)
    requires SameSelection(s.world.store, Outside(tools, s.world, l).store, d)
    ensures NoneForeign(Do(tools, s, l), d)
  {
    hide Foreign, SameSelection, Outside;
    var s' := Do(tools, s, l);
    forall y | y in s'.threads && y != d && y.namespace == d.namespace
      ensures Foreign(s'.world.store, s'.threads[y], d)
    {
      ForeignDepends(s.world.store, s'.world.store, s.threads[y], d);
    }
  }

  /** What is listed without one snapshot is the listing once that is deleted. */
  lemma ListingWithout(store: Store, d: Key, a: seq<Item>, x: Item, b: seq<Item>)
    requires IsListing(store, d.namespace, Selector(d), a + [x] + b)
    ensures SnapshotKey(d, x) in store
    ensures IsListing(store - {SnapshotKey(d, x)}, d.namespace, Selector(d), a + b)
  {
    hide Selector, Matches;
    var all, rest, store' := a + [x] + b, a + b, store - {SnapshotKey(d, x)};
    assert all[|a|] == x;
    assert Selected(store, d.namespace, Selector(d), all[|a|].name);
    assert forall i :: 0 <= i < |rest| ==> rest[i] == all[if i < |a| then i else i + 1];
    forall i | 0 <= i < |rest|
      ensures Selected(store', d.namespace, Selector(d), rest[i].name)
      ensures SnapshotKey(d, rest[i]) in store' && store'[SnapshotKey(d, rest[i])].meta.created == rest[i].created
    {
      var k := if i < |a| then i else i + 1;
      assert rest[i] == all[k] && k != |a|;
      assert Selected(store, d.namespace, Selector(d), all[k].name);
    }
    forall name | Selected(store', d.namespace, Selector(d), name)
      ensures exists i :: 0 <= i < |rest| && rest[i].name == name
    {
      assert Selected(store, d.namespace, Selector(d), name);
      var k :| 0 <= k < |all| && all[k].name == name;
      assert k != |a|;
      assert rest[if k < |a| then k else k - 1] == all[k];
    }
  }

  lemma PruneTurn(s: System, d: Key, cr: Object, items: seq<Item>, i: nat, inp: Input)
    requires d.kind == DirectoryService && Typed(DirectoryService, cr)
    requires i < |items| && i < |items| - cr.spec.schedule.retained && PcOf(s, d) == NextPrune(cr, items, i)
    ensures var s', key := Move(s, d, inp), SnapshotKey(d, items[i]);
            && PcOf(s', d) == (if NextPrune(cr, items, i + 1).Finished? then Start else NextPrune(cr, items, i + 1))
            && s'.world.store == (if inp.fate.Refused? then s.world.store else s.world.store - {key})
            && (forall y :: y != d ==> PcOf(s', y) == PcOf(s, y) && (y in s'.threads <==> y in s.threads))
  {
    hide Fresh, Synchronised, Upserted, Looked, SortByCreation;
    assert CallOf(d, PcOf(s, d)) == Delete(SnapshotKey(d, items[i]));
    if SnapshotKey(d, items[i]) !in s.world.store {
      assert s.world.store - {SnapshotKey(d, items[i])} == s.world.store;
    }
  }

  lemma ForeignFewer(store: Store, gone: set<Key>, pc: Pc, d: Key)
    requires Foreign(store, pc, d)
    ensures Foreign(store - gone, pc, d)
  {
    hide Matches, Selector;
  }

  lemma OwnTry(s: System, d: Key, cr: Object, items: seq<Item>, i: nat, left: seq<Item>, inp: Input)
    requires Sound(s) && d.kind == DirectoryService && Typed(DirectoryService, cr) && cr.spec.schedule.retained >= 0
    requires PruneAt(s, d, cr, items, i, left) && i < Surplus(cr, |items|)
    ensures PruneAt(Move(s, d, inp), d, cr, items, i + 1, if inp.fate.Refused? then left + [items[i]] else left)
  {
    hide IsListing, Foreign, Move;
    PruneTurn(s, d, cr, items, i, inp);
    var s' := Move(s, d, inp);
    assert left + items[i..] == left + [items[i]] + items[i + 1..];
    if !inp.fate.Refused? {
      ListingWithout(s.world.store, d, left, items[i], items[i + 1..]);
    }
    forall y | y in s'.threads && y != d && y.namespace == d.namespace
      ensures Foreign(s'.world.store, s'.threads[y], d)
    {
      assert s'.threads[y] == PcOf(s', y) == PcOf(s, y) == s.threads[y];
      ForeignFewer(s.world.store, {SnapshotKey(d, items[i])}, s.threads[y], d);
    }
  }

  lemma {:induction false} PruneGoesOn(
      tools: Tools, s: System, run: seq<Label>, d: Key, cr: Object, items: seq<Item>, i: nat, left: seq<Item>)
    requires Sound(s) && d.kind == DirectoryService && Typed(DirectoryService, cr) && cr.spec.schedule.retained >= 0
    requires PruneAt(s, d, cr, items, i, left) && LeftAlone(tools, s, run, d)
    requires i + |Tries(run, d)| <= Surplus(cr, |items|)
    ensures var end, tries := Exec(tools, s, run), Tries(run, d);
            && PcOf(end, d) == NextPrune(cr, items, i + |tries|)
            && IsListing(end.world.store, d.namespace, Selector(d), left + Remaining(items[i..], tries))
    decreases |run|
  {
    hide Sound, PruneAt, IsListing, NextPrune, Move, Outside, SameSelection, Surplus;
    if run == [] {
      PruneAtListing(s, d, cr, items, i, left);
    } else {
      var l, rest, s' := run[0], run[1..], Do(tools, s, run[0]);
      SoundKept(tools, s, l);
      if l.Step? && l.req == d {
        assert Tries(run, d) == [l.inp] + Tries(rest, d);
        hide Tries, Remaining;
        OwnTry(s, d, cr, items, i, left, l.inp);
        PruneGoesOn(tools, s', rest, d, cr, items, i + 1, if l.inp.fate.Refused? then left + [items[i]] else left);
        RemainingStep(items, i, left, l.inp, Tries(rest, d));
      } else {
        OtherLabel(tools, s, l, d, cr, items, i, left);
        assert Tries(run, d) == Tries(rest, d);
        PruneGoesOn(tools, s', rest, d, cr, items, i, left);
      }
    }
  }

  lemma RemainingStep(items: seq<Item>, i: nat, left: seq<Item>, inp: Input, tries: seq<Input>)
    requires i + 1 + |tries| <= |items|
    ensures left + Remaining(items[i..], [inp] + tries)
            == (if inp.fate.Refused? then left + [items[i]] else left) + Remaining(items[i + 1..], tries)
  {
    var rest := Remaining(items[i + 1..], tries);
    assert items[i..][1..] == items[i + 1..] && ([inp] + tries)[1..] == tries;
    assert Remaining(items[i..], [inp] + tries) == (if inp.fate.Refused? then [items[i]] else []) + rest;
    hide Remaining;
    if inp.fate.Refused? {
      assert left + ([items[i]] + rest) == (left + [items[i]]) + rest;
    } else {
      assert [] + rest == rest;
    }
  }

  lemma PruneAtListing(s: System, d: Key, cr: Object, items: seq<Item>, i: nat, left: seq<Item>)
    requires Typed(DirectoryService, cr) && PruneAt(s, d, cr, items, i, left)
    ensures PcOf(s, d) == NextPrune(cr, items, i)
    ensures IsListing(s.world.store, d.namespace, Selector(d), left + Remaining(items[i..], []))
  {
  }

  /** A prune while other reconciles interleave and all kinds of things happen elsewhere, from the moment it has
      its listing to its end, whichever deletions fail: it leaves the rest of the sorted list and the refused
      ones, never fewer than the smaller of the list and `retained`; without refusals exactly the youngest
      `retained`; and with `retained` at least one, whatever is newest then was newest before. */
  lemma PruneAmongOthers(tools: Tools, s: System, run: seq<Label>, d: Key, cr: Object, raw: seq<Item>, y: string)
    requires Sound(s) && d.kind == DirectoryService && Typed(DirectoryService, cr) && cr.spec.schedule.retained >= 0
    requires IsListing(s.world.store, d.namespace, Selector(d), raw) && NoneForeign(s, d)
    requires PcOf(s, d) == Scheduled(SnapList, cr, Listed(raw)) && LeftAlone(tools, s, run, d)
    requires |Tries(run, d)| == Surplus(cr, |raw|)
    ensures |SortByCreation(raw)| == |raw|
    ensures var end, tries, items := Exec(tools, s, run), Tries(run, d), SortByCreation(raw);
            var left, store := Remaining(items, tries), end.world.store;
            && PcOf(end, d) == At(Connect, cr)
            && IsListing(store, d.namespace, Selector(d), left)
            && |left| == |raw| - Deletions(tries)
            && (|left| >= |raw| || |left| >= cr.spec.schedule.retained)
            && (forall i, j :: 0 <= i < |tries| <= j < |items| ==> items[i].created <= items[j].created)
            && ((forall i :: 0 <= i < |tries| ==> !tries[i].fate.Refused?) ==> left == items[|tries|..])
            && (cr.spec.schedule.retained >= 1 && IsNewest(store, d.namespace, Selector(d), y) ==>
                  IsNewest(s.world.store, d.namespace, Selector(d), y))
  {
    hide Sound, IsListing, LeftAlone, Exec, Tries, Selector, SortByCreation, Remaining, Deletions, IsNewest,
        NoneForeign;
    SortSorts(raw);
    PruneEnds(tools, s, run, d, cr, raw);
    SortedListing(s.world.store, d.namespace, Selector(d), raw);
    var items, tries, store := SortByCreation(raw), Tries(run, d), Exec(tools, s, run).world.store;
    RemainingLength(items, tries);
    if forall i :: 0 <= i < |tries| ==> !tries[i].fate.Refused? {
      AllDeleted(items, tries);
    }
    if cr.spec.schedule.retained >= 1 && IsNewest(store, d.namespace, Selector(d), y) {
      NewestWas(s.world.store, store, d, items, tries, y);
    }
  }

  lemma PruneEnds(tools: Tools, s: System, run: seq<Label>, d: Key, cr: Object, raw: seq<Item>)
    requires Sound(s) && d.kind == DirectoryService && Typed(DirectoryService, cr) && cr.spec.schedule.retained >= 0
    requires IsListing(s.world.store, d.namespace, Selector(d), raw) && NoneForeign(s, d)
    requires PcOf(s, d) == Scheduled(SnapList, cr, Listed(raw)) && LeftAlone(tools, s, run, d)
    requires |Tries(run, d)| == Surplus(cr, |raw|) && |SortByCreation(raw)| == |raw|
    ensures var end := Exec(tools, s, run);
            && PcOf(end, d) == At(Connect, cr)
            && IsListing(end.world.store, d.namespace, Selector(d), Remaining(SortByCreation(raw), Tries(run, d)))
  {
    hide Sound, IsListing, LeftAlone, Exec, Tries, Selector, SortByCreation, Remaining, NoneForeign;
    var items, tries := SortByCreation(raw), Tries(run, d);
    SortedListing(s.world.store, d.namespace, Selector(d), raw);
    assert items[0..] == items && [] + items == items;
    PruneGoesOn(tools, s, run, d, cr, items, 0, []);
    assert [] + Remaining(items, tries) == Remaining(items, tries);
  }

  /** The last of the list is never tried, so what is newest among the remaining is as new as it. */
  lemma NewestWas(store: Store, store': Store, d: Key, items: seq<Item>, tries: seq<Input>, y: string)
    requires |tries| <= |items| && (items != [] ==> |tries| < |items|) && Sorted(items)
    requires IsListing(store, d.namespace, Selector(d), items)
    requires IsListing(store', d.namespace, Selector(d), Remaining(items, tries))
    requires IsNewest(store', d.namespace, Selector(d), y)
    ensures IsNewest(store, d.namespace, Selector(d), y)
  {
    hide Selector, Matches, Remaining, Sorted;
    var left := Remaining(items, tries);
    var k :| 0 <= k < |left| && left[k].name == y;
    RemainingItems(items, tries, left[k]);
    assert left[k] in left && items != [];
    var last := items[|items| - 1];
    RemainingItems(items, tries, last);
    assert last in left;
    var m :| 0 <= m < |left| && left[m] == last;
    assert Selected(store', d.namespace, Selector(d), left[m].name);
    LastIsNewest(store, d.namespace, Selector(d), items);
    var j :| 0 <= j < |items| && items[j] == left[k];
    assert Selected(store, d.namespace, Selector(d), items[j].name);
  }
}
