/** Sorted snapshot listings, and what `$(latest)` makes of them (controllers/snapshots.go, controllers/pvc.go). */
module Listing {
  import opened Text
  import opened Cluster

  const LATEST := "$(latest)"

  ghost predicate Sorted(items: seq<Item>) {
    forall i, j :: 0 <= i < j < |items| ==> items[i].created <= items[j].created
  }

  function Insert(item: Item, items: seq<Item>): seq<Item> {
    if items == [] || item.created < items[0].created then [item] + items
    else [items[0]] + Insert(item, items[1..])
  }

  /** Sort by creation second. The order of equal seconds is the listing's own, which is arbitrary. */
  function SortByCreation(items: seq<Item>): seq<Item> {
    if items == [] then [] else Insert(items[|items| - 1], SortByCreation(items[..|items| - 1]))
  }

  lemma {:induction false} InsertAdds(item: Item, items: seq<Item>)
    ensures multiset(Insert(item, items)) == multiset{item} + multiset(items)
    ensures |Insert(item, items)| == |items| + 1
  {
    if items == [] || item.created < items[0].created {
    } else {
      InsertAdds(item, items[1..]);
      assert items == [items[0]] + items[1..];
    }
  }

  lemma {:induction false} InsertSorted(item: Item, items: seq<Item>)
    requires Sorted(items)
    ensures Sorted(Insert(item, items))
  {
    if items == [] || item.created < items[0].created {
    } else {
      var tail := Insert(item, items[1..]);
      InsertSorted(item, items[1..]);
      InsertAdds(item, items[1..]);
      forall i | 0 <= i < |tail| ensures items[0].created <= tail[i].created {
        assert tail[i] in multiset(tail);
        assert tail[i] == item || tail[i] in items[1..];
      }
    }
  }

  lemma LastApart(items: seq<Item>)
    requires items != []
    ensures multiset(items) == multiset{items[|items| - 1]} + multiset(items[..|items| - 1])
  {
    assert items == items[..|items| - 1] + [items[|items| - 1]];
  }

  /** Sorting permutes the listing and orders it by creation second. */
  lemma {:induction false} SortSorts(items: seq<Item>)
    ensures Sorted(SortByCreation(items))
    ensures multiset(SortByCreation(items)) == multiset(items)
    ensures |SortByCreation(items)| == |items|
  {
    if items == [] {
    } else {
      var front, last := items[..|items| - 1], items[|items| - 1];
      hide Sorted, Insert;
      SortSorts(front);
      LastApart(items);
      InsertSorted(last, SortByCreation(front));
      InsertAdds(last, SortByCreation(front));
    }
  }

  lemma {:induction false} InsertLast(item: Item, items: seq<Item>)
    requires Sorted(items + [item])
    ensures Insert(item, items) == items + [item]
  {
    if items == [] {
    } else {
      assert (items + [item])[0] == items[0] && (items + [item])[|items|] == item;
      assert (items + [item])[1..] == items[1..] + [item];
      InsertLast(item, items[1..]);
    }
  }

  /** Every order that respects the creation seconds is the outcome of sorting some listing,
      so an unstable sort gives nothing that the model does not. */
  lemma {:induction false} EverySortedOrderArises(items: seq<Item>)
    requires Sorted(items)
    ensures SortByCreation(items) == items
  {
    if items == [] {
    } else {
      var front, last := items[..|items| - 1], items[|items| - 1];
      assert items == front + [last];
      EverySortedOrderArises(front);
      InsertLast(last, front);
    }
  }

  /** Items with distinct names have no repetition, and neither has any permutation of them. */
  lemma {:induction false} DistinctOccursOnce(items: seq<Item>, item: Item)
    requires Distinct(items)
    ensures multiset(items)[item] <= 1
  {
    if items == [] {
    } else {
      assert items == [items[0]] + items[1..];
      DistinctOccursOnce(items[1..], item);
      if items[0] == item {
        assert item !in items[1..];
      }
    }
  }

  lemma OccursTwice(items: seq<Item>, i: nat, j: nat)
    requires i < j < |items| && items[i] == items[j]
    ensures multiset(items)[items[i]] >= 2
  {
    assert items == items[..j] + [items[j]] + items[j + 1..];
    assert items[i] in items[..j];
  }

  lemma PermutationIsListing(store: Store, namespace: string, selector: Labels, a: seq<Item>, b: seq<Item>)
    requires IsListing(store, namespace, selector, a)
    requires multiset(a) == multiset(b)
    ensures IsListing(store, namespace, selector, b)
  {
    forall i | 0 <= i < |b|
      ensures Selected(store, namespace, selector, b[i].name)
      ensures store[Key(Snapshot, namespace, b[i].name)].meta.created == b[i].created
    {
      assert b[i] in multiset(a);
    }
    forall name | Selected(store, namespace, selector, name)
      ensures exists i :: 0 <= i < |b| && b[i].name == name
    {
      var i :| 0 <= i < |a| && a[i].name == name;
      assert a[i] in multiset(b);
    }
    forall i, j | 0 <= i < j < |b|
      ensures b[i].name != b[j].name
    {
      if b[i].name == b[j].name {
        assert b[i].created == b[j].created;
        OccursTwice(b, i, j);
        DistinctOccursOnce(a, b[i]);
      }
    }
  }

  /** The sorted listing lists the same snapshots. */
  lemma SortedListing(store: Store, namespace: string, selector: Labels, items: seq<Item>)
    requires IsListing(store, namespace, selector, items)
    ensures IsListing(store, namespace, selector, SortByCreation(items))
    ensures Sorted(SortByCreation(items))
  {
    SortSorts(items);
    PermutationIsListing(store, namespace, selector, items, SortByCreation(items));
  }

  predicate WantsLatest(claim: ClaimSpec) {
    claim.source.Some? && claim.source.value.name == LATEST
  }

  /** The claim spec with `$(latest)` resolved from a raw listing; None is a failed listing. */
  function Resolve(claim: ClaimSpec, listing: Option<seq<Item>>): ClaimSpec {
    if !WantsLatest(claim) then claim
    else if listing.None? || listing.value == [] then claim.(source := None)
    else
      var sorted := SortByCreation(listing.value);
      if sorted == [] then claim.(source := None)
      else claim.(source := Some(claim.source.value.(name := sorted[|sorted| - 1].name)))
  }

  /** The naive reading of "latest": a selected snapshot that no selected snapshot is younger than. */
  ghost predicate IsNewest(store: Store, namespace: string, selector: Labels, name: string) {
    && Selected(store, namespace, selector, name)
    && forall other :: Selected(store, namespace, selector, other) ==>
         store[Key(Snapshot, namespace, other)].meta.created
         <= store[Key(Snapshot, namespace, name)].meta.created
  }

  lemma LastIsNewest(store: Store, namespace: string, selector: Labels, items: seq<Item>)
    requires IsListing(store, namespace, selector, items) && Sorted(items) && items != []
    ensures IsNewest(store, namespace, selector, items[|items| - 1].name)
  {
    var last := items[|items| - 1];
    forall other | Selected(store, namespace, selector, other)
      ensures store[Key(Snapshot, namespace, other)].meta.created
              <= store[Key(Snapshot, namespace, last.name)].meta.created
    {
      var i :| 0 <= i < |items| && items[i].name == other;
    }
  }

  /** `$(latest)` refines the naive maximum: it names a newest selected snapshot whenever there is one,
      and leaves no data source exactly when nothing is selected. */
  lemma LatestIsNewest(store: Store, namespace: string, selector: Labels, claim: ClaimSpec, items: seq<Item>)
    requires IsListing(store, namespace, selector, items)
    requires claim.source.Some? && claim.source.value.name == "$(latest)"
    ensures var r := Resolve(claim, Some(items));
            && r.shape == claim.shape
            && (r.source.None? <==> forall name :: !Selected(store, namespace, selector, name))
            && (r.source.Some? ==>
                  && r.source.value == claim.source.value.(name := r.source.value.name)
                  && IsNewest(store, namespace, selector, r.source.value.name))
  {
    if items == [] {
      assert Resolve(claim, Some(items)) == claim.(source := None);
    } else {
      SortSorts(items);
      SortedListing(store, namespace, selector, items);
      LastIsNewest(store, namespace, selector, SortByCreation(items));
      assert Selected(store, namespace, selector, items[0].name);
    }
  }

  /** What can be listed depends on the selected snapshots only. */
  lemma ListingDepends(store: Store, store': Store, namespace: string, selector: Labels, items: seq<Item>)
    requires forall name :: Selected(store, namespace, selector, name) ==>
               && Selected(store', namespace, selector, name)
               && store'[Key(Snapshot, namespace, name)].meta.created
                    == store[Key(Snapshot, namespace, name)].meta.created
    requires forall name :: Selected(store', namespace, selector, name) ==> Selected(store, namespace, selector, name)
    ensures IsListing(store, namespace, selector, items) <==> IsListing(store', namespace, selector, items)
  {
    hide Matches;
  }
}
