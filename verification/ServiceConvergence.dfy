/** Undisturbed and without failures, a service settles after one reconcile at a fixed clock: its claims, its
    StatefulSet, its Service and the time of its last snapshot. */
module ServiceConvergence {
  import opened Text
  import opened Cluster
  import opened Listing
  import opened Controllers
  import opened Runs
  import opened Pruning
  import opened Convergence
  import opened Schedule
  import opened Snapshots
  import opened Separation
  import opened Seeding
  import opened Naming
  import Throttle

  predicate ServicePart(st: Stage) {
    st.ServiceClaim? || st.Set? || st.Headless?
  }

  // ---------------------------------------------------------------------------- one upsert

  function ListStage(st: Stage): Stage
    requires st.ServiceClaim? || st.Set?
  {
    if st.Set? then SetList else ServiceClaimList(st.ordinal)
  }

  lemma ListTurn(d: Key, st: Stage, cr: Object, reply: Reply)
    requires d.kind == DirectoryService && Typed(DirectoryService, cr) && (st.ServiceClaim? || st.Set?)
    ensures CallOf(d, At(ListStage(st), cr)) == List(d.namespace, Selector(d))
    ensures Resume(d, At(ListStage(st), cr), reply)
            == Creating(st, cr, Fresh(d, st, cr, Resolve(cr.spec.pod.claim,
                                                         if reply.Listed? then Some(reply.items) else None)))
  {
    hide Fresh, Resolve, Selector;
  }

  lemma ListAnswers(w: World, d: Key, inp: Input)
    ensures var a := Perform(w, List(d.namespace, Selector(d)), inp);
            && a.world == w
            && (a.reply.Listed? ==> IsListing(w.store, d.namespace, Selector(d), a.reply.items))
            && (inp.fate == Success && IsListing(w.store, d.namespace, Selector(d), inp.listing) ==> a.reply.Listed?)
  {
    hide Selector;
  }

  /** The cluster is ready to list the service's snapshots in every call. */
  ghost predicate ListsRight(store: Store, d: Key, inputs: seq<Input>) {
    forall i :: 0 <= i < |inputs| ==> IsListing(store, d.namespace, Selector(d), inputs[i].listing)
  }

  /** The claim is what the template means; if not all listings are `right`, it may lack the data source. */
  ghost predicate Seeded(store: Store, d: Key, template: ClaimSpec, claim: ClaimSpec, right: bool) {
    || IsSeed(store, d, template, claim)
    || (&& !right && template.source.Some? && template.source.value.name == "$(latest)"
        && claim == ClaimSpec(template.shape, None))
  }

  /** What an upsert has made of its target. */
  ghost predicate PartMade(w: World, w': World, d: Key, st: Stage, cr: Object, right: bool)
    requires d.kind == DirectoryService && Typed(DirectoryService, cr) && ServicePart(st)
  {
    var key := Target(d, st);
    && key in w'.store
    && (key !in w.store ==>
          exists tag, claim ::
            && w'.store[key] == Stamped(Fresh(d, st, cr, claim), tag, w.clock)
            && (st.Headless? || Seeded(w.store, d, cr.spec.pod.claim, claim, right)))
    && (key in w.store && Typed(key.kind, w.store[key]) ==>
          || (w'.store[key] == w.store[key] && Adjusted(d, st, cr, w.store[key]) == w.store[key])
          || (&& Adjusted(d, st, cr, w.store[key]) != w.store[key]
              && exists tag :: w'.store[key] == Versioned(Adjusted(d, st, cr, w.store[key]), tag)))
  }

  lemma ResolvedIsSeeded(store: Store, d: Key, template: ClaimSpec, reply: Reply, right: bool)
    requires reply.Listed? ==> IsListing(store, d.namespace, Selector(d), reply.items)
    requires right ==> reply.Listed?
    ensures Seeded(store, d, template, Resolve(template, if reply.Listed? then Some(reply.items) else None), right)
  {
    hide Selector, Resolve, IsListing, IsNewest, Selected;
    if reply.Listed? {
      ResolvedIsSeed(store, d, template, reply.items);
    } else {
      ResolveKeepsTemplate(template, None);
    }
  }

  lemma NewPart(d: Key, st: Stage, cr: Object, claim: ClaimSpec, tag: nat, clock: nat)
    requires d.kind == DirectoryService && Typed(DirectoryService, cr) && ServicePart(st)
    ensures var o := Stamped(Fresh(d, st, cr, claim), tag, clock);
            Typed(TargetKind(st), o) && Adjusted(d, st, cr, o) == o
  {
  }

  lemma AdjustedPart(d: Key, st: Stage, cr: Object, o: Object, tag: nat)
    requires d.kind == DirectoryService && Typed(DirectoryService, cr) && ServicePart(st) && Typed(TargetKind(st), o)
    ensures var o' := Versioned(Adjusted(d, st, cr, o), tag);
            && Typed(TargetKind(st), o') && Adjusted(d, st, cr, o') == o'
            && Merged(o, Adjusted(d, st, cr, o)) == Adjusted(d, st, cr, o)
            && (st.Set? || Adjusted(d, st, cr, o) == o)
  {
  }

  /** What an upsert is to bring about. */
  ghost predicate PartDone(w: World, w': World, d: Key, st: Stage, cr: Object)
    requires d.kind == DirectoryService && Typed(DirectoryService, cr) && ServicePart(st)
  {
    && Fixed(w', d, st, cr) && ChangedAt(w, w', Target(d, st)) && WellTyped(w')
    && d in w'.store && w'.store[d] == cr
    && (Fixed(w, d, st, cr) ==> w' == w)
  }

  lemma WrittenDone(w: World, d: Key, st: Stage, cr: Object, o: Object, tag: nat)
    requires d.kind == DirectoryService && Typed(DirectoryService, cr) && ServicePart(st) && WellTyped(w)
    requires d in w.store && w.store[d] == cr && !Fixed(w, d, st, cr)
    requires Typed(TargetKind(st), o) && Adjusted(d, st, cr, o) == o
    ensures PartDone(w, Written(w, Target(d, st), o, tag), d, st, cr)
  {
    hide Adjusted, WellTyped, Typed;
    assert Target(d, st).kind == TargetKind(st) && Target(d, st) != d;
    hide Target, TargetKind;
    WrittenWellTyped(w, Target(d, st), o, tag);
  }

  predicate IsSuffix(rest: seq<Input>, inputs: seq<Input>) {
    |rest| <= |inputs| && rest == inputs[|inputs| - |rest|..]
  }

  lemma PartFound(w: World, d: Key, st: Stage, cr: Object, inputs: seq<Input>, right: bool)
      returns (w': World, rest: seq<Input>)
    requires d.kind == DirectoryService && Typed(DirectoryService, cr) && ServicePart(st)
    requires Good(w, inputs) && |inputs| >= 3 && WellTyped(w) && d in w.store && w.store[d] == cr
    requires Target(d, st) in w.store
    ensures Drive(w, d, At(st, cr), inputs) == Drive(w', d, Proceed(st, cr), rest)
    ensures Good(w', rest) && |rest| >= |inputs| - 3 && PartDone(w, w', d, st, cr)
    ensures PartMade(w, w', d, st, cr, right) && IsSuffix(rest, inputs)
  {
    hide CallOf, Resume, Fresh, Adjusted, Proceed, WellTyped;
    var key := Target(d, st);
    var o := w.store[key];
    assert Typed(key.kind, o) by { TypedAt(w, key); }
    UpsertTurn(d, st, cr);
    hide Target, Typed;
    if Adjusted(d, st, cr, o) == o {
      w', rest := w, inputs[1..];
      GoodTail(w, w, inputs, 1);
      assert Perform(w, Get(key), inputs[0]) == Answer(w, Found(o));
    } else {
      w', rest := Written(w, key, Versioned(Adjusted(d, st, cr, o), inputs[1].tag), inputs[1].tag), inputs[2..];
      AdjustedPart(d, st, cr, o, inputs[1].tag);
      assert Adjusted(d, st, cr, o).meta.version == o.meta.version;
      UpdatePerformed(w, key, Adjusted(d, st, cr, o), inputs[1]);
      assert Perform(w, Get(key), inputs[0]) == Answer(w, Found(o));
      hide Perform, Drive;
      DriveTwo(w, d, At(st, cr), inputs);
      WrittenDone(w, d, st, cr, Versioned(Adjusted(d, st, cr, o), inputs[1].tag), inputs[1].tag);
      GoodTail(w, w', inputs, 2);
    }
  }

  lemma TypedAt(w: World, key: Key)
    requires WellTyped(w) && key in w.store
    ensures Typed(key.kind, w.store[key])
  {
  }

  lemma DriveOne(w: World, d: Key, pc: Pc, inputs: seq<Input>)
    requires Ready(d.kind, pc) && !pc.Finished? && inputs != []
    ensures var a := Perform(w, CallOf(d, pc), inputs[0]);
            Drive(w, d, pc, inputs) == Drive(a.world, d, Resume(d, pc, a.reply), inputs[1..])
  {
  }

  lemma CreatedTurn(d: Key, st: Stage, cr: Object, o: Object, reply: Reply)
    requires d.kind == DirectoryService && Typed(DirectoryService, cr) && ServicePart(st) && reply.Found?
    ensures Resume(d, Creating(st, cr, o), reply) == Proceed(st, cr)
  {
  }

  /** Creating what has been drafted. */
  lemma PartCreated(w: World, d: Key, st: Stage, cr: Object, claim: ClaimSpec, inputs: seq<Input>, right: bool)
      returns (w': World, rest: seq<Input>)
    requires d.kind == DirectoryService && Typed(DirectoryService, cr) && ServicePart(st)
    requires Good(w, inputs) && |inputs| >= 1 && WellTyped(w) && d in w.store && w.store[d] == cr
    requires Target(d, st) !in w.store && (st.Headless? || Seeded(w.store, d, cr.spec.pod.claim, claim, right))
    ensures Drive(w, d, Creating(st, cr, Fresh(d, st, cr, claim)), inputs) == Drive(w', d, Proceed(st, cr), rest)
    ensures Good(w', rest) && |rest| >= |inputs| - 1 && PartDone(w, w', d, st, cr)
    ensures PartMade(w, w', d, st, cr, right) && IsSuffix(rest, inputs)
  {
    hide Perform, CallOf, Resume, Fresh, Adjusted, Proceed, WellTyped, Drive, Target, Seeded;
    var key, o, tag := Target(d, st), Fresh(d, st, cr, claim), inputs[0].tag;
    w', rest := Written(w, key, Stamped(o, tag, w.clock), tag), inputs[1..];
    UpsertTurn(d, st, cr);
    var pc := Creating(st, cr, o);
    assert CallOf(d, pc) == Create(key, o);
    CreatePerformed(w, key, o, inputs[0]);
    CreatedTurn(d, st, cr, o, Found(Stamped(o, tag, w.clock)));
    DriveOne(w, d, pc, inputs);
    NewPart(d, st, cr, claim, tag, w.clock);
    WrittenDone(w, d, st, cr, Stamped(o, tag, w.clock), tag);
    GoodTail(w, w', inputs, 1);
  }

  /** Looking for it in vain, and listing the snapshots if its claim asks for the latest one. */
  lemma PartDrafted(w: World, d: Key, st: Stage, cr: Object, inputs: seq<Input>)
      returns (claim: ClaimSpec, rest: seq<Input>)
    requires d.kind == DirectoryService && Typed(DirectoryService, cr) && ServicePart(st)
    requires Good(w, inputs) && |inputs| >= 3 && Target(d, st) !in w.store
    ensures Drive(w, d, At(st, cr), inputs) == Drive(w, d, Creating(st, cr, Fresh(d, st, cr, claim)), rest)
    ensures Good(w, rest) && |rest| >= |inputs| - 2 && IsSuffix(rest, inputs)
    ensures st.Headless? || Seeded(w.store, d, cr.spec.pod.claim, claim, ListsRight(w.store, d, inputs))
  {
    hide Perform, CallOf, Resume, Fresh, Adjusted, Proceed, Drive, Target, Seeded, IsListing, Resolve;
    UpsertTurn(d, st, cr);
    DriveOne(w, d, At(st, cr), inputs);
    GetMisses(w, Target(d, st), inputs[0]);
    GoodTail(w, w, inputs, 1);
    rest := inputs[1..];
    claim := cr.spec.pod.claim;
    if (st.ServiceClaim? || st.Set?) && WantsLatest(claim) {
      var listing := At(ListStage(st), cr);
      var reply := Perform(w, List(d.namespace, Selector(d)), inputs[1]).reply;
      ListTurn(d, st, cr, reply);
      ListAnswers(w, d, inputs[1]);
      DriveOne(w, d, listing, rest);
      ResolvedIsSeeded(w.store, d, cr.spec.pod.claim, reply, ListsRight(w.store, d, inputs));
      claim := Resolve(cr.spec.pod.claim, if reply.Listed? then Some(reply.items) else None);
      rest := inputs[2..];
      assert inputs[1..][1..] == rest;
      GoodTail(w, w, inputs, 2);
    } else if !st.Headless? {
      TemplateIsSeeded(w.store, d, claim, ListsRight(w.store, d, inputs));
    }
  }

  lemma GetMisses(w: World, key: Key, inp: Input)
    requires key !in w.store && inp.fate == Success
    ensures Perform(w, Get(key), inp) == Answer(w, Missing)
  {
  }

  lemma TemplateIsSeeded(store: Store, d: Key, template: ClaimSpec, right: bool)
    requires !WantsLatest(template)
    ensures Seeded(store, d, template, template, right)
  {
    hide Selector, Selected;
  }

  lemma Part(w: World, d: Key, st: Stage, cr: Object, inputs: seq<Input>) returns (w': World, rest: seq<Input>)
    requires d.kind == DirectoryService && Typed(DirectoryService, cr) && ServicePart(st)
    requires Good(w, inputs) && |inputs| >= 3 && WellTyped(w) && d in w.store && w.store[d] == cr
    ensures Drive(w, d, At(st, cr), inputs) == Drive(w', d, Proceed(st, cr), rest)
    ensures Good(w', rest) && |rest| >= |inputs| - 3 && PartDone(w, w', d, st, cr)
    ensures PartMade(w, w', d, st, cr, ListsRight(w.store, d, inputs))
    ensures SameSelection(w.store, w'.store, d) && (ListsRight(w.store, d, inputs) ==> ListsRight(w'.store, d, rest))
  {
    hide Drive, Good, WellTyped, PartDone, PartMade, Target, Proceed, Fresh, Seeded, SameSelection, ListsRight;
    if Target(d, st) in w.store {
      w', rest := PartFound(w, d, st, cr, inputs, ListsRight(w.store, d, inputs));
    } else {
      var claim, in1 := PartDrafted(w, d, st, cr, inputs);
      w', rest := PartCreated(w, d, st, cr, claim, in1, ListsRight(w.store, d, inputs));
    }
    PartKeepsSelection(w, w', d, st, cr);
    if ListsRight(w.store, d, inputs) {
      StillListed(w.store, w'.store, d, inputs, rest);
    }
  }

  lemma PartKeepsSelection(w: World, w': World, d: Key, st: Stage, cr: Object)
    requires d.kind == DirectoryService && Typed(DirectoryService, cr) && ServicePart(st) && PartDone(w, w', d, st, cr)
    ensures SameSelection(w.store, w'.store, d)
  {
    hide Fixed, Matches, Selector, WellTyped;
  }

  lemma StillListed(store: Store, store': Store, d: Key, inputs: seq<Input>, rest: seq<Input>)
    requires SameSelection(store, store', d) && ListsRight(store, d, inputs) && IsSuffix(rest, inputs)
    ensures ListsRight(store', d, rest)
  {
    hide IsListing, SameSelection;
    SameFinds(store, store', d);
    forall i | 0 <= i < |rest|
      ensures IsListing(store', d.namespace, Selector(d), rest[i].listing)
    {
      assert rest[i] == inputs[|inputs| - |rest| + i];
      ListingDepends(store, store', d.namespace, Selector(d), rest[i].listing);
    }
  }

  // ------------------------------------------------------------------------------ the claims

  /** Nothing that was there has changed. */
  ghost predicate Extends(w: World, w': World) {
    && w' == w.(store := w'.store, tags := w'.tags)
    && forall key :: key in w.store ==> key in w'.store && w'.store[key] == w.store[key]
  }

  ghost predicate ClaimsFixed(w: World, d: Key, cr: Object, i: nat)
    requires d.kind == DirectoryService && Typed(DirectoryService, cr)
  {
    forall j: nat :: i <= j < cr.spec.replicas ==> Fixed(w, d, ServiceClaim(j), cr)
  }

  /** A claim that is there stays as it is, so an upsert of one only adds. */
  lemma ClaimAdds(w: World, w': World, d: Key, i: nat, cr: Object)
    requires d.kind == DirectoryService && Typed(DirectoryService, cr) && WellTyped(w) && i < cr.spec.replicas
    requires PartDone(w, w', d, ServiceClaim(i), cr)
    ensures Extends(w, w')
    ensures ClaimsFixed(w, d, cr, i) ==> w' == w
  {
    hide Fresh;
    var key := Target(d, ServiceClaim(i));
    if key in w.store {
      assert Typed(key.kind, w.store[key]);
      assert Fixed(w, d, ServiceClaim(i), cr);
    }
  }

  lemma StaysFixed(w: World, w': World, d: Key, st: Stage, cr: Object)
    requires d.kind == DirectoryService && Typed(DirectoryService, cr) && ServicePart(st) && Fixed(w, d, st, cr)
    requires Target(d, st) in w'.store && w'.store[Target(d, st)] == w.store[Target(d, st)]
    ensures Fixed(w', d, st, cr)
  {
    hide Adjusted;
  }

  function Outstanding(cr: Object, i: nat): nat
    requires Typed(DirectoryService, cr)
  {
    if i < cr.spec.replicas then cr.spec.replicas - i else 0
  }

  /** What has been made of the claims from ordinal `i` on. */
  ghost predicate ClaimsMade(w: World, w': World, d: Key, cr: Object, i: nat, right: bool)
    requires d.kind == DirectoryService && Typed(DirectoryService, cr)
  {
    forall j: nat :: i <= j < cr.spec.replicas ==> PartMade(w, w', d, ServiceClaim(j), cr, right)
  }

  /** The claim of one of the first `n` ordinals. */
  ghost predicate OfOrdinal(d: Key, n: int, key: Key) {
    exists j: nat :: j < n && key == ClaimOf(d, j)
  }

  function ClaimOf(d: Key, ordinal: nat): Key {
    Key(Claim, d.namespace, "data-" + d.name + "-" + Decimal(ordinal))
  }

  /** Nothing but the claims of the first `n` ordinals has changed. */
  ghost predicate OnlyClaims(w: World, w': World, d: Key, n: int) {
    forall k :: !OfOrdinal(d, n, k) ==> (k in w'.store <==> k in w.store) && (k in w.store ==> w'.store[k] == w.store[k])
  }

  lemma MoreClaims(w: World, w1: World, w': World, d: Key, cr: Object, i: nat, right: bool, right': bool)
    requires d.kind == DirectoryService && Typed(DirectoryService, cr) && i < cr.spec.replicas
    requires PartMade(w, w1, d, ServiceClaim(i), cr, right) && ChangedAt(w, w1, Target(d, ServiceClaim(i)))
    requires Extends(w, w1) && Extends(w1, w') && SameSelection(w.store, w1.store, d) && (right ==> right')
    requires ClaimsMade(w1, w', d, cr, i + 1, right') && OnlyClaims(w1, w', d, cr.spec.replicas)
    ensures ClaimsMade(w, w', d, cr, i, right) && OnlyClaims(w, w', d, cr.spec.replicas)
  {
    hide PartMade, SameSelection;
    forall j: nat | i <= j < cr.spec.replicas
      ensures PartMade(w, w', d, ServiceClaim(j), cr, right)
    {
      if j == i {
        MadeIsStored(w, w1, d, ServiceClaim(i), cr, right);
        MadeStays(w, w1, w', d, ServiceClaim(i), cr, right);
      } else {
        assert PartMade(w1, w', d, ServiceClaim(j), cr, right');
        ClaimTargets(d, i, j);
        MadeLater(w, w1, w', d, ServiceClaim(j), cr, right, right');
      }
    }
    OwnClaim(d, cr.spec.replicas, i);
  }

  lemma OwnClaim(d: Key, n: int, i: nat)
    requires i < n
    ensures OfOrdinal(d, n, Target(d, ServiceClaim(i)))
  {
    assert Target(d, ServiceClaim(i)) == ClaimOf(d, i);
  }

  lemma ClaimTargets(d: Key, i: nat, j: nat)
    requires i != j
    ensures Target(d, ServiceClaim(i)) != Target(d, ServiceClaim(j))
  {
    if DataClaim(d.name, i) == DataClaim(d.name, j) {
      DataClaimInjective(d.name, i, d.name, j);
    }
  }

  /** What has been made stays if nothing happens to it later on. */
  lemma MadeStays(w: World, w1: World, w': World, d: Key, st: Stage, cr: Object, right: bool)
    requires d.kind == DirectoryService && Typed(DirectoryService, cr) && ServicePart(st)
    requires PartMade(w, w1, d, st, cr, right)
    requires Target(d, st) in w'.store && w'.store[Target(d, st)] == w1.store[Target(d, st)]
    ensures PartMade(w, w', d, st, cr, right)
  {
    hide Fresh, Adjusted, Target, Seeded;
  }

  /** The same if nothing has happened to it before, nor to the snapshots. */
  lemma MadeLater(w: World, w1: World, w': World, d: Key, st: Stage, cr: Object, right: bool, right': bool)
    requires d.kind == DirectoryService && Typed(DirectoryService, cr) && ServicePart(st)
    requires PartMade(w1, w', d, st, cr, right')
    requires Target(d, st) in w1.store <==> Target(d, st) in w.store
    requires Target(d, st) in w.store ==> w1.store[Target(d, st)] == w.store[Target(d, st)]
    requires SameSelection(w.store, w1.store, d) && w1.clock == w.clock && (right ==> right')
    ensures PartMade(w, w', d, st, cr, right)
  {
    hide Fresh, Adjusted, Target, Seeded, SameSelection;
    var key := Target(d, st);
    if key !in w.store {
      var tag, claim :|
        && w'.store[key] == Stamped(Fresh(d, st, cr, claim), tag, w1.clock)
        && (st.Headless? || Seeded(w1.store, d, cr.spec.pod.claim, claim, right'));
      if !st.Headless? {
        SeededAlready(w.store, w1.store, d, cr.spec.pod.claim, claim, right, right');
      }
    }
  }

  lemma SeededAlready(
      store: Store, store': Store, d: Key, template: ClaimSpec, claim: ClaimSpec, right: bool, right': bool)
    requires SameSelection(store, store', d) && Seeded(store', d, template, claim, right') && (right ==> right')
    ensures Seeded(store, d, template, claim, right)
  {
    hide IsSeed, SameSelection;
    if IsSeed(store', d, template, claim) {
      SeedDepends(store, store', d, template, claim);
    }
  }

  /** The claims from ordinal `i` on, one after the other. */
  lemma {:induction false} Claims(w: World, d: Key, cr: Object, i: nat, inputs: seq<Input>)
      returns (w': World, rest: seq<Input>)
    requires d.kind == DirectoryService && Typed(DirectoryService, cr)
    requires Good(w, inputs) && |inputs| >= 3 * Outstanding(cr, i) && WellTyped(w) && d in w.store && w.store[d] == cr
    ensures Drive(w, d, NextClaim(cr, i), inputs) == Drive(w', d, At(Secrets, cr), rest)
    ensures Good(w', rest) && |rest| >= |inputs| - 3 * Outstanding(cr, i) && WellTyped(w')
    ensures Extends(w, w') && ClaimsFixed(w', d, cr, i) && d in w'.store && w'.store[d] == cr && w'.clock == w.clock
    ensures ClaimsFixed(w, d, cr, i) ==> w' == w
    ensures ClaimsMade(w, w', d, cr, i, ListsRight(w.store, d, inputs)) && OnlyClaims(w, w', d, cr.spec.replicas)
    ensures SameSelection(w.store, w'.store, d) && (ListsRight(w.store, d, inputs) ==> ListsRight(w'.store, d, rest))
    decreases Outstanding(cr, i)
  {
    hide Drive, Good, WellTyped, Fixed, Target, PartMade, SameSelection, ListsRight, ChangedAt;
    if i >= cr.spec.replicas {
      w', rest := w, inputs;
      SelectionStays(w.store, d);
    } else {
      var w1, in1 := Part(w, d, ServiceClaim(i), cr, inputs);
      ClaimAdds(w, w1, d, i, cr);
      w', rest := Claims(w1, d, cr, i + 1, in1);
      StaysFixed(w1, w', d, ServiceClaim(i), cr) by { FixedIsStored(w1, d, ServiceClaim(i), cr); }
      MoreClaims(w, w1, w', d, cr, i, ListsRight(w.store, d, inputs), ListsRight(w1.store, d, in1));
      SelectionTransitive(w.store, w1.store, w'.store, d);
    }
  }

  lemma SelectionStays(store: Store, d: Key)
    ensures SameSelection(store, store, d)
  {
  }

  lemma FixedIsStored(w: World, d: Key, st: Stage, cr: Object)
    requires d.kind == DirectoryService && Typed(DirectoryService, cr) && ServicePart(st) && Fixed(w, d, st, cr)
    ensures Target(d, st) in w.store
  {
  }

  // ------------------------------------------------------------------------- all the objects

  /** The claims, the StatefulSet and the Service are there with nothing left to adjust. */
  ghost predicate ObjectsFixed(w: World, d: Key, cr: Object)
    requires d.kind == DirectoryService && Typed(DirectoryService, cr)
  {
    ClaimsFixed(w, d, cr, 0) && Fixed(w, d, Set, cr) && Fixed(w, d, Headless, cr)
  }

  lemma Opens(w: World, d: Key, inputs: seq<Input>)
    requires d.kind == DirectoryService && d in w.store && Typed(DirectoryService, w.store[d])
    requires Good(w, inputs) && inputs != []
    ensures Drive(w, d, Start, inputs) == Drive(w, d, NextClaim(w.store[d], 0), inputs[1..])
    ensures Good(w, inputs[1..])
  {
    hide Drive, NextClaim;
    DriveOne(w, d, Start, inputs);
    GoodTail(w, w, inputs, 1);
  }

  lemma Attempted(w: World, d: Key, st: Stage, cr: Object, inputs: seq<Input>)
    requires d.kind == DirectoryService && Typed(DirectoryService, cr) && Good(w, inputs) && inputs != []
    requires st.Secrets? || st.Proxy? || st.Connect?
    ensures var next := if st.Secrets? then Set else if st.Proxy? then Headless else PassClock;
            Drive(w, d, At(st, cr), inputs) == Drive(w, d, At(next, cr), inputs[1..])
    ensures Good(w, inputs[1..])
  {
    hide Drive, Fresh, Resolve;
    DriveOne(w, d, At(st, cr), inputs);
    GoodTail(w, w, inputs, 1);
  }

  lemma TargetsApart(d: Key, i: nat)
    ensures Target(d, ServiceClaim(i)) != Target(d, Set) && Target(d, ServiceClaim(i)) != Target(d, Headless)
    ensures Target(d, Set) != Target(d, Headless)
  {
  }

  lemma StillFixed(w: World, w': World, d: Key, st: Stage, cr: Object, key: Key)
    requires d.kind == DirectoryService && Typed(DirectoryService, cr) && ServicePart(st) && Fixed(w, d, st, cr)
    requires ChangedAt(w, w', key) && Target(d, st) != key
    ensures Fixed(w', d, st, cr)
  {
    hide Adjusted;
  }

  lemma ClaimsStillFixed(w: World, w': World, d: Key, cr: Object, key: Key)
    requires d.kind == DirectoryService && Typed(DirectoryService, cr) && ClaimsFixed(w, d, cr, 0)
    requires ChangedAt(w, w', key) && key.kind != Claim
    ensures ClaimsFixed(w', d, cr, 0)
  {
    hide Fixed, ChangedAt;
    forall j: nat | j < cr.spec.replicas
      ensures Fixed(w', d, ServiceClaim(j), cr)
    {
      StillFixed(w, w', d, ServiceClaim(j), cr, key);
    }
  }

  /** What a reconcile makes of the objects of a service, and that it changes no others. */
  ghost predicate ObjectsMade(w: World, w': World, d: Key, cr: Object, right: bool)
    requires d.kind == DirectoryService && Typed(DirectoryService, cr)
  {
    && ClaimsMade(w, w', d, cr, 0, right) && PartMade(w, w', d, Set, cr, right)
         && PartMade(w, w', d, Headless, cr, right)
    && w' == w.(store := w'.store, tags := w'.tags) && OnlyObjects(w, w', d, cr.spec.replicas)
  }

  ghost predicate OnlyObjects(w: World, w': World, d: Key, n: int) {
    forall k :: !OfOrdinal(d, n, k) && k != Target(d, Set) && k != Target(d, Headless) ==>
      (k in w'.store <==> k in w.store) && (k in w.store ==> w'.store[k] == w.store[k])
  }

  lemma OnlyObjectsChanged(w: World, w1: World, w2: World, w': World, d: Key, n: int)
    requires OnlyClaims(w, w1, d, n) && ChangedAt(w1, w2, Target(d, Set)) && ChangedAt(w2, w', Target(d, Headless))
    ensures OnlyObjects(w, w', d, n)
  {
    hide OfOrdinal, Target;
  }

  lemma ClaimsAreMade(w: World, w1: World, w': World, d: Key, cr: Object, right: bool, right0: bool)
    requires d.kind == DirectoryService && Typed(DirectoryService, cr)
    requires ClaimsMade(w, w1, d, cr, 0, right0) && (right ==> right0)
    requires forall j: nat :: Target(d, ServiceClaim(j)) in w1.store ==>
               && Target(d, ServiceClaim(j)) in w'.store
               && w'.store[Target(d, ServiceClaim(j))] == w1.store[Target(d, ServiceClaim(j))]
    ensures ClaimsMade(w, w', d, cr, 0, right)
  {
    hide PartMade, SameSelection;
    SelectionStays(w.store, d);
    forall j: nat | j < cr.spec.replicas
      ensures PartMade(w, w', d, ServiceClaim(j), cr, right)
    {
      MadeIsStored(w, w1, d, ServiceClaim(j), cr, right0);
      MadeStays(w, w1, w', d, ServiceClaim(j), cr, right0);
      MadeLater(w, w, w', d, ServiceClaim(j), cr, right, right0);
    }
  }

  lemma AllMade(
      w: World, w1: World, w2: World, w': World, d: Key, cr: Object, right: bool, right0: bool, right1: bool,
          right2: bool)
    requires d.kind == DirectoryService && Typed(DirectoryService, cr) && (right ==> right0 && right1 && right2)
    requires ClaimsMade(w, w1, d, cr, 0, right0) && Extends(w, w1) && OnlyClaims(w, w1, d, cr.spec.replicas)
    requires PartMade(w1, w2, d, Set, cr, right1) && ChangedAt(w1, w2, Target(d, Set))
    requires PartMade(w2, w', d, Headless, cr, right2) && ChangedAt(w2, w', Target(d, Headless))
    requires SameSelection(w.store, w1.store, d) && SameSelection(w1.store, w2.store, d)
    ensures ObjectsMade(w, w', d, cr, right)
  {
    hide PartMade, SameSelection, OfOrdinal, ClaimsMade, OnlyObjects, Target;
    TargetsApart(d, 0);
    ClaimsUntouched(w1, w2, w', d);
    NotClaims(d, cr.spec.replicas);
    SelectionTransitive(w.store, w1.store, w2.store, d);
    ClaimsAreMade(w, w1, w', d, cr, right, right0);
    MadeLater(w, w1, w2, d, Set, cr, right, right1);
    MadeIsStored(w, w2, d, Set, cr, right);
    MadeStays(w, w2, w', d, Set, cr, right);
    MadeLater(w, w2, w', d, Headless, cr, right, right2);
    OnlyObjectsChanged(w, w1, w2, w', d, cr.spec.replicas);
  }

  lemma ClaimsUntouched(w1: World, w2: World, w': World, d: Key)
    requires ChangedAt(w1, w2, Target(d, Set)) && ChangedAt(w2, w', Target(d, Headless))
    ensures forall j: nat :: Target(d, ServiceClaim(j)) in w1.store ==>
              && Target(d, ServiceClaim(j)) in w'.store
              && w'.store[Target(d, ServiceClaim(j))] == w1.store[Target(d, ServiceClaim(j))]
  {
    forall j: nat | Target(d, ServiceClaim(j)) in w1.store
      ensures Target(d, ServiceClaim(j)) in w'.store
              && w'.store[Target(d, ServiceClaim(j))] == w1.store[Target(d, ServiceClaim(j))]
    {
      TargetsApart(d, j);
    }
  }

  lemma NotClaims(d: Key, n: int)
    ensures !OfOrdinal(d, n, Target(d, Set)) && !OfOrdinal(d, n, Target(d, Headless))
  {
  }

  lemma MadeIsStored(w: World, w': World, d: Key, st: Stage, cr: Object, right: bool)
    requires d.kind == DirectoryService && Typed(DirectoryService, cr) && ServicePart(st)
    requires PartMade(w, w', d, st, cr, right)
    ensures Target(d, st) in w'.store
  {
  }

  /** Where a reconcile goes on after the objects: to the snapshots if they are enabled, otherwise past them. */
  function SnapshotStage(cr: Object): Stage
    requires Typed(DirectoryService, cr)
  {
    if cr.spec.schedule.enabled then SnapClock else Connect
  }

  lemma HeadlessLeads(cr: Object)
    requires Typed(DirectoryService, cr)
    ensures Proceed(Headless, cr) == At(SnapshotStage(cr), cr)
  {
  }

  /** From the start up to the snapshots. */
  lemma Objects(w: World, d: Key, cr: Object, inputs: seq<Input>) returns (w': World, rest: seq<Input>)
    requires d.kind == DirectoryService && Typed(DirectoryService, cr) && WellTyped(w) && d in w.store
    requires w.store[d] == cr
    requires Good(w, inputs) && |inputs| >= 3 * Outstanding(cr, 0) + 9
    ensures Drive(w, d, Start, inputs) == Drive(w', d, At(SnapshotStage(cr), cr), rest)
    ensures Good(w', rest) && |rest| >= |inputs| - 3 * Outstanding(cr, 0) - 9 && WellTyped(w')
    ensures d in w'.store && w'.store[d] == cr && w'.clock == w.clock && ObjectsFixed(w', d, cr)
    ensures ObjectsFixed(w, d, cr) ==> w' == w
    ensures ObjectsMade(w, w', d, cr, ListsRight(w.store, d, inputs)) && SameSelection(w.store, w'.store, d)
    ensures ListsRight(w.store, d, inputs) ==> ListsRight(w'.store, d, rest)
  {
    hide Drive, Good, WellTyped, Fixed, Target, ClaimsFixed, ClaimsMade, PartMade, OnlyClaims, ObjectsMade,
        SameSelection,
      ListsRight, OfOrdinal, Extends, ChangedAt;
    Opens(w, d, inputs);
    var in0 := inputs[1..];
    var w1, in1 := Claims(w, d, cr, 0, in0);
    Attempted(w1, d, Secrets, cr, in1);
    var w2, in2 := Part(w1, d, Set, cr, in1[1..]);
    Attempted(w2, d, Proxy, cr, in2);
    w', rest := Part(w2, d, Headless, cr, in2[1..]);
    HeadlessLeads(cr);
    ObjectsStillFixed(w1, w2, w', d, cr);
    if ListsRight(w.store, d, inputs) {
      ListsTail(w.store, d, inputs);
      ListsTail(w1.store, d, in1);
      ListsTail(w2.store, d, in2);
    }
    AllMade(w, w1, w2, w', d, cr, ListsRight(w.store, d, inputs), ListsRight(w.store, d, in0),
            ListsRight(w1.store, d, in1[1..]), ListsRight(w2.store, d, in2[1..]));
    SelectionTransitive(w.store, w1.store, w2.store, d);
    SelectionTransitive(w.store, w2.store, w'.store, d);
  }

  lemma ListsTail(store: Store, d: Key, inputs: seq<Input>)
    requires ListsRight(store, d, inputs) && inputs != []
    ensures ListsRight(store, d, inputs[1..])
  {
    hide IsListing;
  }

  lemma ObjectsStillFixed(w1: World, w2: World, w': World, d: Key, cr: Object)
    requires d.kind == DirectoryService && Typed(DirectoryService, cr) && ClaimsFixed(w1, d, cr, 0)
    requires ChangedAt(w1, w2, Target(d, Set)) && Fixed(w2, d, Set, cr)
    requires ChangedAt(w2, w', Target(d, Headless)) && Fixed(w', d, Headless, cr)
    ensures ObjectsFixed(w', d, cr) && w'.clock == w1.clock
  {
    hide Fixed, ClaimsFixed;
    TargetsApart(d, 0);
    ClaimsStillFixed(w1, w2, d, cr, Target(d, Set));
    ClaimsStillFixed(w2, w', d, cr, Target(d, Headless));
    StillFixed(w2, w', d, Set, cr, Target(d, Headless));
  }

  // ----------------------------------------------------------------- the time of the last snapshot

  lemma {:induction false} DriveAppend(w: World, d: Key, pc: Pc, a: seq<Input>, b: seq<Input>)
    requires Ready(d.kind, pc)
    ensures var mid := Drive(w, d, pc, a);
            Ready(d.kind, mid.pc) && Drive(w, d, pc, a + b) == Drive(mid.world, d, mid.pc, b)
    decreases |a|
  {
    hide Perform, CallOf, Resume;
    if a == [] || pc.Finished? {
      assert a == [] ==> a + b == b;
    } else {
      var next := Perform(w, CallOf(d, pc), a[0]);
      assert (a + b)[0] == a[0] && (a + b)[1..] == a[1..] + b;
      DriveAppend(next.world, d, Resume(d, pc, next.reply), a[1..], b);
    }
  }

  /** No snapshot is due: the period, in 32 bits of seconds, has not passed since the last one. */
  predicate NotDue(w: World, cr: Object)
    requires Typed(DirectoryService, cr)
  {
    cr.spec.schedule.enabled && cr.status.lastSnapshot != 0 ==>
      w.clock < cr.status.lastSnapshot + Int32(cr.spec.schedule.periodMinutes * 60)
  }

  lemma NoneTaken(w: World, cr: Object)
    requires Typed(DirectoryService, cr) && NotDue(w, cr) && cr.spec.schedule.enabled
    ensures !Takes(cr, w.clock)
  {
    hide Int32;
  }

  predicate FirstTime(cr: Object)
    requires Typed(DirectoryService, cr)
  {
    cr.spec.schedule.enabled && cr.status.lastSnapshot == 0
  }

  lemma Waits(w: World, d: Key, cr: Object, inputs: seq<Input>)
    requires d.kind == DirectoryService && Typed(DirectoryService, cr) && Good(w, inputs) && inputs != []
    requires cr.spec.schedule.enabled && cr.status.lastSnapshot != 0 && !Takes(cr, w.clock)
    ensures Drive(w, d, At(SnapClock, cr), inputs) == Drive(w, d, At(Connect, cr), inputs[1..])
    ensures Good(w, inputs[1..])
  {
    hide Drive, Fresh, Resolve;
    DriveOne(w, d, At(SnapClock, cr), inputs);
    GoodTail(w, w, inputs, 1);
  }

  lemma FirstTimeTags(w: World, d: Key, cr: Object, inputs: seq<Input>)
    requires d.kind == DirectoryService && d in w.store && w.store[d] == cr && Typed(DirectoryService, cr)
    requires cr.status.lastSnapshot == 0 && Good(w, inputs) && |inputs| == 2
    ensures Drive(w, d, At(SnapClock, cr), inputs).world.tags <= w.tags + {inputs[1].tag}
    ensures var w' := Drive(w, d, At(SnapClock, cr), inputs).world;
            d in w'.store && w'.store[d].spec == cr.spec && (w.clock == 0 ==> w' == w)
  {
    hide Upserted, Looked, Synchronised, Fresh, Resolve;
    var pc := At(SnapClock, cr);
    DriveTwo(w, d, pc, inputs);
    assert CallOf(d, pc) == Now;
    assert Resume(d, pc, Time(w.clock)) == At(SnapFirst(w.clock), cr);
    assert inputs[2..] == [];
  }

  /** The snapshot part when none is due: the first time it records the time, otherwise it changes nothing. */
  lemma SnapshotTime(w: World, d: Key, cr: Object, inputs: seq<Input>) returns (w': World, rest: seq<Input>)
    requires d.kind == DirectoryService && d in w.store && w.store[d] == cr && Typed(DirectoryService, cr)
    requires Good(w, inputs) && |inputs| >= 2 && NotDue(w, cr)
    ensures d in w'.store && Typed(DirectoryService, w'.store[d]) && w'.store[d].spec == cr.spec
    ensures Drive(w, d, At(SnapshotStage(cr), cr), inputs) == Drive(w', d, At(Connect, w'.store[d]), rest)
    ensures Good(w', rest) && |rest| >= |inputs| - 2 && ChangedAt(w, w', d)
    ensures w'.store[d].status == ServiceStatus(if FirstTime(cr) then w.clock else cr.status.lastSnapshot)
    ensures !FirstTime(cr) || w.clock == 0 ==> w' == w
    ensures w'.store[d].meta == cr.meta.(version := w'.store[d].meta.version)
  {
    hide Drive, Takes, Good, Int32;
    if cr.spec.schedule.enabled {
      NoneTaken(w, cr);
    }
    if !cr.spec.schedule.enabled {
      w', rest := w, inputs;
    } else if cr.status.lastSnapshot != 0 {
      w', rest := w, inputs[1..];
      Waits(w, d, cr, inputs);
    } else {
      var a, b := inputs[..2], inputs[2..];
      GoodFront(w, inputs, 2);
      FirstTimeOnlyRecords(w, d, cr, a);
      FirstTimeTags(w, d, cr, a);
      DriveAppend(w, d, At(SnapClock, cr), a, b);
      assert a + b == inputs;
      w', rest := Drive(w, d, At(SnapClock, cr), a).world, b;
      GoodTail(w, w', inputs, 2);
    }
  }

  lemma GoodFront(w: World, inputs: seq<Input>, n: nat)
    requires Good(w, inputs) && n <= |inputs|
    ensures Good(w, inputs[..n])
  {
  }

  // ------------------------------------------------------------------------------ the reconcile

  lemma SameSpecFixed(w: World, d: Key, st: Stage, cr: Object, cr': Object)
    requires d.kind == DirectoryService && Typed(DirectoryService, cr) && Typed(DirectoryService, cr')
    requires ServicePart(st)
    requires cr'.spec == cr.spec && Fixed(w, d, st, cr)
    ensures Fixed(w, d, st, cr')
  {
  }

  lemma ObjectsStayFixed(w: World, w': World, d: Key, cr: Object, cr': Object)
    requires d.kind == DirectoryService && Typed(DirectoryService, cr) && Typed(DirectoryService, cr')
    requires cr'.spec == cr.spec && ObjectsFixed(w, d, cr) && ChangedAt(w, w', d)
    ensures ObjectsFixed(w', d, cr')
  {
    hide Fixed, ChangedAt;
    ClaimsStillFixed(w, w', d, cr, d);
    StillFixed(w, w', d, Set, cr, d);
    StillFixed(w, w', d, Headless, cr, d);
    SameSpecFixed(w', d, Set, cr, cr');
    SameSpecFixed(w', d, Headless, cr, cr');
    forall j: nat | j < cr'.spec.replicas
      ensures Fixed(w', d, ServiceClaim(j), cr')
    {
      SameSpecFixed(w', d, ServiceClaim(j), cr, cr');
    }
  }

  /** One undisturbed reconcile of a service with no snapshot due, up to the passwords: all of its objects are
      there and adjusted, and the time of the first enabled reconcile is recorded. */
  lemma ServiceReconcile(w: World, d: Key, cr: Object, inputs: seq<Input>) returns (w': World, rest: seq<Input>)
    requires d.kind == DirectoryService && Typed(DirectoryService, cr) && WellTyped(w) && d in w.store
    requires w.store[d] == cr
    requires Good(w, inputs) && |inputs| >= 3 * Outstanding(cr, 0) + 11 && NotDue(w, cr)
    ensures d in w'.store && Typed(DirectoryService, w'.store[d]) && w'.store[d].spec == cr.spec
    ensures Drive(w, d, Start, inputs) == Drive(w', d, At(Connect, w'.store[d]), rest)
    ensures Good(w', rest) && |rest| >= |inputs| - 3 * Outstanding(cr, 0) - 11 && w'.clock == w.clock && WellTyped(w')
    ensures ObjectsFixed(w', d, w'.store[d])
    ensures w'.store[d].status == ServiceStatus(if FirstTime(cr) then w.clock else cr.status.lastSnapshot)
    ensures ObjectsFixed(w, d, cr) && (!FirstTime(cr) || w.clock == 0) ==> w' == w
  {
    hide Drive, Good, WellTyped, ObjectsFixed, ChangedAt, ObjectsMade, SameSelection, ListsRight, Int32;
    var w1, in1 := Objects(w, d, cr, inputs);
    w', rest := SnapshotTime(w1, d, cr, in1);
    ObjectsStayFixed(w1, w', d, cr, w'.store[d]);
    OnlyCrChanged(w1, w', d);
  }

  lemma OnlyCrChanged(w: World, w': World, d: Key)
    requires ChangedAt(w, w', d) && WellTyped(w) && d in w'.store && Typed(d.kind, w'.store[d])
    ensures w'.clock == w.clock && WellTyped(w')
  {
    hide Typed;
  }

  /** R R = R for services, up to the passwords: with every call succeeding, nobody interfering, no snapshot due
      and the clock standing still, the second reconcile changes neither a claim, nor the StatefulSet, nor the
      Service, nor the time of the last snapshot, nor anything else. */
  lemma ServiceSettles(w: World, d: Key, in1: seq<Input>, in2: seq<Input>)
      returns (once: World, rest1: seq<Input>, rest2: seq<Input>)
    requires d.kind == DirectoryService && WellTyped(w) && d in w.store && Typed(DirectoryService, w.store[d])
    requires 1 <= w.store[d].spec.schedule.periodMinutes <= MAX_PERIOD && NotDue(w, w.store[d])
    requires |in1| >= 3 * Outstanding(w.store[d], 0) + 11 && |in2| >= 3 * Outstanding(w.store[d], 0) + 11
    requires Good(w, in1)
    ensures d in once.store && Typed(DirectoryService, once.store[d]) && WellTyped(once)
    ensures Drive(w, d, Start, in1) == Drive(once, d, At(Connect, once.store[d]), rest1)
    ensures Good(once, in2) ==> Drive(once, d, Start, in2) == Drive(once, d, At(Connect, once.store[d]), rest2)
  {
    hide Drive, Good, WellTyped, ObjectsFixed;
    once, rest1 := ServiceReconcile(w, d, w.store[d], in1);
    rest2 := [];
    if Good(once, in2) {
      var cr := once.store[d];
      assert Int32(cr.spec.schedule.periodMinutes * 60) == 60 * cr.spec.schedule.periodMinutes;
      var twice;
      twice, rest2 := ServiceReconcile(once, d, cr, in2);
    }
  }

  /** Writing back what is stored already changes nothing. */
  lemma PutSame(w: World, d: Key, cr: Object, inp: Input)
    requires d in w.store && w.store[d] == cr && inp.fate == Success && inp.tag !in w.tags
    ensures Perform(w, Replace(d, cr), inp) == Answer(w, Found(cr))
    ensures Perform(w, ReplaceStatus(d, cr), inp) == Answer(w, Found(cr))
  {
    assert Merged(cr, cr) == cr;
  }

  lemma SaveTurn(d: Key, cr: Object)
    requires d.kind == DirectoryService && Typed(DirectoryService, cr)
    ensures CallOf(d, At(UpdateCr(cr.meta.annotations), cr)) == Replace(d, cr)
    ensures Resume(d, At(UpdateCr(cr.meta.annotations), cr), Found(cr)) == At(FinalStatus, cr)
    ensures CallOf(d, At(FinalStatus, cr)) == ReplaceStatus(d, cr)
    ensures Resume(d, At(FinalStatus, cr), Found(cr)) == Finished(Outcome(60, false))
  {
    assert cr.(meta := cr.meta.(annotations := cr.meta.annotations)) == cr;
  }

  lemma Unchanged(w: World, d: Key, cr: Object, inputs: seq<Input>)
    requires d.kind == DirectoryService && d in w.store && w.store[d] == cr && Typed(DirectoryService, cr)
    requires Good(w, inputs) && |inputs| >= 2
    ensures Drive(w, d, At(UpdateCr(cr.meta.annotations), cr), inputs) == Stop(Finished(Outcome(60, false)), w)
  {
    hide Perform, CallOf, Resume;
    SaveTurn(d, cr);
    PutSame(w, d, cr, inputs[0]);
    PutSame(w, d, cr, inputs[1]);
    DriveTwo(w, d, At(UpdateCr(cr.meta.annotations), cr), inputs);
  }

  /** Once its objects are settled, no snapshot is due and a password pass is on record for less than five
      minutes, a whole undisturbed reconcile changes nothing at all and asks for the next one in a minute. */
  lemma QuietReconcile(w: World, d: Key, cr: Object, inputs: seq<Input>)
    requires d.kind == DirectoryService && Typed(DirectoryService, cr) && WellTyped(w) && d in w.store
    requires w.store[d] == cr
    requires Good(w, inputs) && |inputs| >= 3 * Outstanding(cr, 0) + 15 && NotDue(w, cr) && !FirstTime(cr)
    requires ObjectsFixed(w, d, cr) && !Throttle.PassDue(cr.meta.annotations, w.clock)
    ensures Drive(w, d, Start, inputs) == Stop(Finished(Outcome(60, false)), w)
  {
    hide Drive, WellTyped, ObjectsFixed, Takes;
    var w', rest := ServiceReconcile(w, d, cr, inputs);
    Attempted(w, d, Connect, cr, rest);
    var rest1 := rest[1..];
    SkipsPasswords(w, d, cr, rest1);
    Unchanged(w, d, cr, rest1[1..]);
  }

  lemma SkipsPasswords(w: World, d: Key, cr: Object, inputs: seq<Input>)
    requires d.kind == DirectoryService && Typed(DirectoryService, cr) && Good(w, inputs) && inputs != []
    requires !Throttle.PassDue(cr.meta.annotations, w.clock)
    ensures Drive(w, d, At(PassClock, cr), inputs) == Drive(w, d, At(UpdateCr(cr.meta.annotations), cr), inputs[1..])
    ensures Good(w, inputs[1..])
  {
    hide Perform, CallOf, Resume, Drive, TooSoon, NextAccount, Throttle.PassDue;
    DriveOne(w, d, At(PassClock, cr), inputs);
    Throttle.ClockTurn(w, d, cr, inputs[0]);
    Throttle.DueUnlessTooSoon(cr.meta.annotations, w.clock);
    GoodTail(w, w, inputs, 1);
  }
}
