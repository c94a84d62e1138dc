/** All the claims that one reconcile makes, and the claim template of its StatefulSet, are seeded alike
    (controllers/pvc.go, controllers/sts.go). */
module Seeding {
  import opened Text
  import opened Cluster
  import opened Listing
  import opened Controllers
  import opened Runs
  import opened Separation

  // ------------------------------------------------------------------------------ what a seed is

  /** The service finds the same snapshots, created at the same times. */
  ghost predicate SameSelection(store: Store, store': Store, d: Key) {
    forall name :: SameFind(store, store', d, name)
  }

  ghost predicate SameFind(store: Store, store': Store, d: Key, name: string) {
    var key := Key(Snapshot, d.namespace, name);
    && (Selected(store, d.namespace, Selector(d), name) <==> Selected(store', d.namespace, Selector(d), name))
    && (Selected(store, d.namespace, Selector(d), name) ==> store'[key].meta.created == store[key].meta.created)
  }

  lemma SameFinds(store: Store, store': Store, d: Key)
    requires SameSelection(store, store', d)
    ensures forall name :: Selected(store', d.namespace, Selector(d), name) ==>
              Selected(store, d.namespace, Selector(d), name)
    ensures forall name :: Selected(store, d.namespace, Selector(d), name) ==>
              && Selected(store', d.namespace, Selector(d), name)
              && store'[Key(Snapshot, d.namespace, name)].meta.created
                   == store[Key(Snapshot, d.namespace, name)].meta.created
  {
    hide Matches, Selector;
    forall name
      ensures Selected(store', d.namespace, Selector(d), name) ==> Selected(store, d.namespace, Selector(d), name)
      ensures Selected(store, d.namespace, Selector(d), name) ==>
                && Selected(store', d.namespace, Selector(d), name)
                && store'[Key(Snapshot, d.namespace, name)].meta.created
                     == store[Key(Snapshot, d.namespace, name)].meta.created
    {
      assert SameFind(store, store', d, name);
    }
  }

  /** What the template means in this store: itself or, for `$(latest)`, a newest snapshot of the service, and
      no data source if it has none. */
  ghost predicate IsSeed(store: Store, d: Key, template: ClaimSpec, claim: ClaimSpec) {
    if template.source.None? || template.source.value.name != "$(latest)" then claim == template
    else
      && claim.shape == template.shape
      && (claim.source.None? <==> forall name :: !Selected(store, d.namespace, Selector(d), name))
      && (claim.source.Some? ==>
            && claim.source.value == template.source.value.(name := claim.source.value.name)
            && IsNewest(store, d.namespace, Selector(d), claim.source.value.name))
  }

  /** No two of the service's snapshots are both the newest. */
  ghost predicate OneNewest(store: Store, d: Key) {
    forall x, y :: IsNewest(store, d.namespace, Selector(d), x) && IsNewest(store, d.namespace, Selector(d), y) ==>
        x == y
  }

  lemma OneSeed(store: Store, d: Key, template: ClaimSpec, a: ClaimSpec, b: ClaimSpec)
    requires OneNewest(store, d) && IsSeed(store, d, template, a) && IsSeed(store, d, template, b)
    ensures a == b
  {
    hide Selected, IsNewest;
  }

  lemma SeedDepends(store: Store, store': Store, d: Key, template: ClaimSpec, claim: ClaimSpec)
    requires SameSelection(store, store', d) && IsSeed(store', d, template, claim)
    ensures IsSeed(store, d, template, claim)
  {
    hide Matches, Selector;
    SameFinds(store, store', d);
  }

  lemma ResolvedIsSeed(store: Store, d: Key, template: ClaimSpec, items: seq<Item>)
    requires IsListing(store, d.namespace, Selector(d), items)
    ensures IsSeed(store, d, template, Resolve(template, Some(items)))
  {
    hide Selected, IsNewest, IsListing;
    if template.source.Some? && template.source.value.name == "$(latest)" {
      hide Resolve;
      LatestIsNewest(store, d.namespace, Selector(d), template, items);
    }
  }

  // --------------------------------------------------------------------- the early part of a reconcile

  predicate EarlyStage(st: Stage) {
    st.ServiceClaim? || st.ServiceClaimList? || st.Secrets? || st.Set? || st.SetList?
  }

  /** From the first claim to the StatefulSet. */
  predicate Early(pc: Pc) {
    (pc.At? || pc.Creating? || pc.Updating?) && EarlyStage(pc.stage)
  }

  predicate Sows(pc: Pc) {
    pc.Creating? && (pc.stage.ServiceClaim? || pc.stage.Set?)
  }

  lemma EarlyNext(d: Key, pc: Pc, reply: Reply)
    requires Ready(d.kind, pc) && !pc.Finished? && d.kind == DirectoryService
    ensures var next := Resume(d, pc, reply);
            && (Early(next) ==> pc.Start? || (Early(pc) && next.cr == pc.cr))
            && (pc.Start? ==> next.Finished? || (Early(next) && next.At?))
            && (Sows(next) ==> Early(next) && pc.At?)
  {
    hide Fresh, Resolve, Adjusted, Synchronised, Scheduled;
  }

  /** What a reconcile is about to create is the template or what a listing makes of it. */
  lemma Sowing(d: Key, pc: Pc, reply: Reply)
    requires Ready(d.kind, pc) && d.kind == DirectoryService && pc.At? && Early(pc)
    ensures var next, template := Resume(d, pc, reply), pc.cr.spec.pod.claim;
            Sows(next) ==>
              || ((template.source.None? || template.source.value.name != "$(latest)") && ClaimIn(next.obj) == template)
              || (&& (pc.stage.ServiceClaimList? || pc.stage.SetList?)
                  && ClaimIn(next.obj) == Resolve(template, if reply.Listed? then Some(reply.items) else None))
  {
    hide Resolve, Synchronised, Scheduled;
  }

  lemma ListedNow(w: World, d: Key, pc: Pc, inp: Input)
    requires Ready(d.kind, pc) && pc.At? && (pc.stage.ServiceClaimList? || pc.stage.SetList?)
    ensures var reply := Perform(w, CallOf(d, pc), inp).reply;
            reply.Listed? ==> IsListing(w.store, d.namespace, Selector(d), reply.items)
  {
    hide Selector;
  }

  lemma SownIsSeed(w: World, d: Key, pc: Pc, inp: Input)
    requires Ready(d.kind, pc) && d.kind == DirectoryService && pc.At? && Early(pc)
    requires pc.stage.ServiceClaimList? || pc.stage.SetList? ==> Perform(w, CallOf(d, pc), inp).reply.Listed?
    ensures var next := Resume(d, pc, Perform(w, CallOf(d, pc), inp).reply);
            Sows(next) ==> IsSeed(w.store, d, pc.cr.spec.pod.claim, ClaimIn(next.obj))
  {
    hide Perform, CallOf, Resume, Resolve, Selected, IsNewest;
    var reply := Perform(w, CallOf(d, pc), inp).reply;
    Sowing(d, pc, reply);
    if pc.stage.ServiceClaimList? || pc.stage.SetList? {
      ListedNow(w, d, pc, inp);
      ResolvedIsSeed(w.store, d, pc.cr.spec.pod.claim, reply.items);
    }
  }

  // ------------------------------------------------------------------------ the selection stays

  /** No other service is about to prune a snapshot of `d`. */
  ghost predicate NoneForeign(s: System, d: Key) {
    forall y :: y in s.threads && y != d && y.namespace == d.namespace ==> Foreign(s.world.store, s.threads[y], d)
  }

  ghost predicate Foreign(store: Store, pc: Pc, d: Key) {
    pc.At? && pc.stage.Prune? ==>
      forall i :: 0 <= i < |pc.stage.items| ==> !Selected(store, d.namespace, Selector(d), pc.stage.items[i].name)
  }

  lemma ForeignDepends(store: Store, store': Store, pc: Pc, d: Key)
    requires SameSelection(store, store', d) && Foreign(store, pc, d)
    ensures Foreign(store', pc, d)
  {
    hide Matches, Selector;
    SameFinds(store, store', d);
  }

  /** Up to its StatefulSet a reconcile makes and deletes no snapshot. */
  lemma EarlyStep(w: World, d: Key, pc: Pc, inp: Input)
    requires ThreadOk(w, d, pc) && d.kind == DirectoryService && (pc.Start? || Early(pc))
    ensures SameSelection(w.store, Perform(w, CallOf(d, pc), inp).world.store, d)
  {
    hide Perform, CallOf, Fresh, Adjusted, Matches, Selector;
    StepEffect(w, d, pc, inp);
  }

  /** Others make no snapshots with the labels of `d` and prune none. */
  lemma OthersFind(w: World, d: Key, y: Key, pc: Pc, inp: Input, name: string)
    requires ThreadOk(w, y, pc) && d.kind == DirectoryService && y != d
    requires y.namespace == d.namespace ==> Foreign(w.store, pc, d)
    ensures SameFind(w.store, Perform(w, CallOf(y, pc), inp).world.store, d, name)
  {
    hide Perform, CallOf, Fresh, Adjusted, Matches, Selector;
    var key := Key(Snapshot, d.namespace, name);
    StepEffect(w, y, pc, inp);
    if key in w.store {
      StepPreserves(w, y, pc, inp, key);
    } else if pc.Creating? && Target(y, pc.stage) == key {
      FreshLabelsMatch(y, pc.stage, pc.cr, ClaimIn(pc.obj), d);
    }
  }

  /** A list that another service is about to prune has no snapshot of `d`. */
  lemma OthersList(w: World, d: Key, y: Key, pc: Pc, inp: Input)
    requires ThreadOk(w, y, pc) && d.kind == DirectoryService && y != d && y.namespace == d.namespace
    requires Foreign(w.store, pc, d)
    ensures Foreign(w.store, Resume(y, pc, Perform(w, CallOf(y, pc), inp).reply), d)
  {
    hide Perform, CallOf, Resume, Matches, Selector, SortByCreation;
    PruneListAfter(w, y, pc, inp);
    var next := Resume(y, pc, Perform(w, CallOf(y, pc), inp).reply);
    if next.At? && next.stage.Prune? && pc.At? && pc.stage.SnapList? {
      SortedListing(w.store, y.namespace, Selector(y), inp.listing);
      forall i | 0 <= i < |next.stage.items|
        ensures !Selected(w.store, d.namespace, Selector(d), next.stage.items[i].name)
      {
        var key := Key(Snapshot, d.namespace, next.stage.items[i].name);
        assert Selected(w.store, y.namespace, Selector(y), next.stage.items[i].name);
        if Selected(w.store, d.namespace, Selector(d), next.stage.items[i].name) {
          OneService(w.store[key].meta.labels, d, y);
        }
      }
    }
  }

  // ------------------------------------------------------------------------------------ over runs

  /** A claim or claim template that was created, and the template it was made from. */
  datatype Sown = Sown(template: ClaimSpec, claim: ClaimSpec)

  /** The claim or StatefulSet that a step of `d` creates. */
  ghost function SownBy(s: System, l: Label, d: Key): Option<Sown> {
    var pc := PcOf(s, d);
    if && l.Step? && l.req == d && Ready(d.kind, pc) && d.kind == DirectoryService && Sows(pc)
       && Target(d, pc.stage) !in s.world.store && Target(d, pc.stage) in Move(s, d, l.inp).world.store
    then Some(Sown(pc.cr.spec.pod.claim, ClaimIn(Move(s, d, l.inp).world.store[Target(d, pc.stage)])))
    else None
  }

  /** Every claim and StatefulSet that a step of `d` creates is one of these. */
  lemma EveryCreationIsSown(s: System, l: Label, d: Key, key: Key)
    requires Sound(s) && d.kind == DirectoryService && l.Step? && l.req == d
    requires key !in s.world.store && key in Move(s, d, l.inp).world.store
    requires key.kind == Claim || key.kind == StatefulSet
    ensures SownBy(s, l, d).Some? && SownBy(s, l, d).value.claim == ClaimIn(Move(s, d, l.inp).world.store[key])
  {
    hide Perform, CallOf, Resume, ThreadOk, Sows;
    assert ThreadOk(s.world, d, PcOf(s, d)) && Ready(d.kind, PcOf(s, d)) by { ThreadSound(s, d); }
    CreatedAsDrafted(s, d, l.inp, key);
  }

  ghost function Sowings(tools: Tools, s: System, run: seq<Label>, d: Key): seq<Sown>
    decreases |run|
  {
    if run == [] then []
    else
      var sown := SownBy(s, run[0], d);
      (if sown.Some? then [sown.value] else []) + Sowings(tools, Do(tools, s, run[0]), run[1..], d)
  }

  /** The listings of `d` succeed, and users leave its snapshots alone while it reconciles. */
  ghost predicate Steady(tools: Tools, s: System, l: Label, d: Key) {
    var pc := PcOf(s, d);
    && (l.Step? && l.req == d && Ready(d.kind, pc) && pc.At? && (pc.stage.ServiceClaimList? || pc.stage.SetList?) ==>
          Perform(s.world, CallOf(d, pc), l.inp).reply.Listed?)
    && (!l.Step? && !l.Crash? && (pc.Start? || Early(pc)) ==>
          SameSelection(s.world.store, Outside(tools, s.world, l).store, d))
  }

  predicate Starts(s: System, l: Label, d: Key) {
    l.Step? && l.req == d && PcOf(s, d).Start?
  }

  /** At most one reconcile of `d` starts in the run, none if one has `begun` before. */
  ghost predicate OneReconcile(tools: Tools, s: System, run: seq<Label>, d: Key, begun: bool)
    decreases |run|
  {
    run != [] ==>
      && (Starts(s, run[0], d) ==> !begun)
      && Steady(tools, s, run[0], d)
      && OneReconcile(tools, Do(tools, s, run[0]), run[1..], d, begun || Starts(s, run[0], d))
  }

  /** As long as the reconcile has not started or is in its early part, the service finds what it found in
      `store`; `template` is that of the custom resource it has read. */
  ghost predicate Inv(store: Store, s: System, d: Key, template: Option<ClaimSpec>) {
    var pc := PcOf(s, d);
    && (template.None? ==> pc.Start?)
    && (template.None? || Early(pc) ==> SameSelection(store, s.world.store, d) && NoneForeign(s, d))
    && (Early(pc) ==> template.Some? && Typed(DirectoryService, pc.cr) && pc.cr.spec.pod.claim == template.value)
    && (Sows(pc) ==> template.Some? && IsSeed(store, d, template.value, ClaimIn(pc.obj)))
  }

  /** The template of the reconcile that is under way after the label. */
  ghost function TemplateAfter(tools: Tools, s: System, l: Label, d: Key,
      template: Option<ClaimSpec>): Option<ClaimSpec> {
    var pc := PcOf(Do(tools, s, l), d);
    if !Starts(s, l, d) then template
    else if Early(pc) && pc.cr.spec.ServiceSpec? then Some(pc.cr.spec.pod.claim)
    else Some(ClaimSpec("", None))
  }

  lemma SelectionTransitive(a: Store, b: Store, c: Store, d: Key)
    requires SameSelection(a, b, d) && SameSelection(b, c, d)
    ensures SameSelection(a, c, d)
  {
    hide Selected;
    forall name
      ensures SameFind(a, c, d, name)
    {
      assert SameFind(a, b, d, name) && SameFind(b, c, d, name);
    }
  }

  lemma OwnStep(tools: Tools, store: Store, s: System, l: Label, d: Key, template: Option<ClaimSpec>)
    requires Sound(s) && d.kind == DirectoryService && Inv(store, s, d, template) && Steady(tools, s, l, d)
    requires l.Step? && l.req == d && (Starts(s, l, d) ==> template.None?)
    ensures Inv(store, Do(tools, s, l), d, TemplateAfter(tools, s, l, d, template))
  {
    hide Perform, CallOf, Resume, SameSelection, Foreign, IsSeed;
    var pc, s' := PcOf(s, d), Do(tools, s, l);
    assert ThreadOk(s.world, d, pc);
    var reply := Perform(s.world, CallOf(d, pc), l.inp).reply;
    EarlyNext(d, pc, reply);
    if pc.Start? || Early(pc) {
      EarlyStep(s.world, d, pc, l.inp);
      if template.None? || Early(pc) {
        SelectionTransitive(store, s.world.store, s'.world.store, d);
        forall y | y in s'.threads && y != d && y.namespace == d.namespace
          ensures Foreign(s'.world.store, s'.threads[y], d)
        {
          ForeignDepends(s.world.store, s'.world.store, s.threads[y], d);
        }
      }
    }
    if Early(pc) && pc.At? {
      SownIsSeed(s.world, d, pc, l.inp);
      var next := Resume(d, pc, reply);
      if Sows(next) {
        SeedDepends(store, s.world.store, d, pc.cr.spec.pod.claim, ClaimIn(next.obj));
      }
    }
  }

  lemma OtherStep(tools: Tools, store: Store, s: System, l: Label, d: Key, template: Option<ClaimSpec>)
    requires Sound(s) && d.kind == DirectoryService && Inv(store, s, d, template)
    requires l.Step? && l.req != d
    ensures Inv(store, Do(tools, s, l), d, template)
  {
    hide Perform, CallOf, Resume, SameFind, Foreign, IsSeed;
    var pc, s' := PcOf(s, l.req), Do(tools, s, l);
    assert ThreadOk(s.world, l.req, pc);
    if template.None? || Early(PcOf(s, d)) {
      StartIsForeign(s.world.store, d);
      forall name
        ensures SameFind(s.world.store, s'.world.store, d, name)
      {
        OthersFind(s.world, d, l.req, pc, l.inp, name);
      }
      assert SameSelection(s.world.store, s'.world.store, d);
      SelectionTransitive(store, s.world.store, s'.world.store, d);
      if l.req.namespace == d.namespace {
        OthersList(s.world, d, l.req, pc, l.inp);
      }
      forall y | y in s'.threads && y != d && y.namespace == d.namespace
        ensures Foreign(s'.world.store, s'.threads[y], d)
      {
        ForeignDepends(s.world.store, s'.world.store, s'.threads[y], d);
      }
    }
  }

  lemma StartIsForeign(store: Store, d: Key)
    ensures Foreign(store, Start, d)
  {
  }

  lemma OutsideLabel(tools: Tools, store: Store, s: System, l: Label, d: Key, template: Option<ClaimSpec>)
    requires d.kind == DirectoryService && Inv(store, s, d, template) && Steady(tools, s, l, d) && !l.Step?
    ensures Inv(store, Do(tools, s, l), d, template)
  {
    hide Outside, SameSelection, Foreign, IsSeed;
    if !l.Crash? && (template.None? || Early(PcOf(s, d))) {
      var s' := Do(tools, s, l);
      SelectionTransitive(store, s.world.store, s'.world.store, d);
      forall y | y in s'.threads && y != d && y.namespace == d.namespace
        ensures Foreign(s'.world.store, s'.threads[y], d)
      {
        ForeignDepends(s.world.store, s'.world.store, s.threads[y], d);
      }
    }
  }

  lemma InvKept(tools: Tools, store: Store, s: System, l: Label, d: Key, template: Option<ClaimSpec>)
    requires Sound(s) && d.kind == DirectoryService && Inv(store, s, d, template) && Steady(tools, s, l, d)
    requires Starts(s, l, d) ==> template.None?
    ensures Inv(store, Do(tools, s, l), d, TemplateAfter(tools, s, l, d, template))
  {
    hide Inv, Steady, Do;
    if l.Step? && l.req == d {
      OwnStep(tools, store, s, l, d, template);
    } else if l.Step? {
      OtherStep(tools, store, s, l, d, template);
    } else {
      OutsideLabel(tools, store, s, l, d, template);
    }
  }

  /** A step that creates one stores the seed it had drafted. */
  lemma SownAsDrafted(store: Store, s: System, l: Label, d: Key, template: Option<ClaimSpec>)
    requires Sound(s) && d.kind == DirectoryService && Inv(store, s, d, template) && SownBy(s, l, d).Some?
    ensures var sown := SownBy(s, l, d).value;
            template == Some(sown.template) && IsSeed(store, d, sown.template, sown.claim)
  {
    hide Perform, CallOf, Resume, IsSeed, SameSelection, NoneForeign;
    var pc := PcOf(s, d);
    assert ThreadOk(s.world, d, pc);
    StepEffect(s.world, d, pc, l.inp);
  }

  ghost predicate AllSeeds(store: Store, d: Key, template: Option<ClaimSpec>, sown: seq<Sown>) {
    forall i :: 0 <= i < |sown| ==>
      && IsSeed(store, d, sown[i].template, sown[i].claim)
      && sown[i].template == (if template.Some? then template.value else sown[0].template)
  }

  lemma {:induction false} SeedsOnly(
      tools: Tools, store: Store, s: System, run: seq<Label>, d: Key, template: Option<ClaimSpec>)
    requires Sound(s) && d.kind == DirectoryService && Inv(store, s, d, template)
    requires OneReconcile(tools, s, run, d, template.Some?)
    ensures AllSeeds(store, d, template, Sowings(tools, s, run, d))
    decreases |run|
  {
    hide Do, Inv, Sound, Steady, SownBy, IsSeed, Starts;
    if run == [] {
    } else {
      var l, s', template' := run[0], Do(tools, s, run[0]), TemplateAfter(tools, s, run[0], d, template);
      SoundKept(tools, s, l);
      InvKept(tools, store, s, l, d, template);
      SeedsOnly(tools, store, s', run[1..], d, template');
      if SownBy(s, l, d).Some? {
        SownAsDrafted(store, s, l, d, template);
      }
    }
  }

  /** Uniform seeding. In every run with one reconcile of `d`, interleaved with the reconciles of any other
      custom resources, with calls of it failing or the operator restarting, and with users editing the custom
      resource meanwhile: if one snapshot of the service is the newest, its listings succeed and others leave
      its snapshots alone until it is past its StatefulSet, then all the claims it creates and the claim
      template of a StatefulSet it creates have the same spec, seeded from that snapshot for `$(latest)`. */
  lemma SeededAlike(tools: Tools, s: System, run: seq<Label>, d: Key)
    requires Sound(s) && d.kind == DirectoryService && d !in s.threads && NoneForeign(s, d)
    requires OneReconcile(tools, s, run, d, false) && OneNewest(s.world.store, d)
    ensures var sown := Sowings(tools, s, run, d);
            && (forall i :: 0 <= i < |sown| ==> IsSeed(s.world.store, d, sown[i].template, sown[i].claim))
            && (forall i, j :: 0 <= i < |sown| && 0 <= j < |sown| ==> sown[i].claim == sown[j].claim)
  {
    hide Sowings, OneReconcile, OneNewest, IsSeed, NoneForeign;
    SeedsOnly(tools, s.world.store, s, run, d, None);
    var sown := Sowings(tools, s, run, d);
    forall i, j | 0 <= i < |sown| && 0 <= j < |sown|
      ensures sown[i].claim == sown[j].claim
    {
      OneSeed(s.world.store, d, sown[0].template, sown[i].claim, sown[j].claim);
    }
  }

  // ------------------------------------------------------------------------- the sentinel never gets out

  /** Without a listing, a claim or claim template that asks for `$(latest)` is drafted without a data source. */
  lemma NoListingNoSource(d: Key, pc: Pc, reply: Reply)
    requires Ready(d.kind, pc) && d.kind == DirectoryService && pc.At?
    requires pc.stage.ServiceClaimList? || pc.stage.SetList?
    requires pc.cr.spec.pod.claim.source.Some? && pc.cr.spec.pod.claim.source.value.name == "$(latest)"
    requires !reply.Listed?
    ensures var next := Resume(d, pc, reply);
            && Sows(next) && (if pc.stage.SetList? then next.stage == Set
                  else next.stage == ServiceClaim(pc.stage.ordinal))
            && ClaimIn(next.obj) == ClaimSpec(pc.cr.spec.pod.claim.shape, None)
  {
    hide Resolve;
    ResolveKeepsTemplate(pc.cr.spec.pod.claim, None);
  }

  predicate NotSentinel(claim: ClaimSpec) {
    claim.source.Some? ==> claim.source.value.name != "$(latest)"
  }

  /** The service has no snapshot of that name. */
  ghost predicate NoneSo(store: Store, d: Key) {
    !Selected(store, d.namespace, Selector(d), "$(latest)")
  }

  lemma SeedIsNoSentinel(store: Store, d: Key, template: ClaimSpec, claim: ClaimSpec)
    requires IsSeed(store, d, template, claim) && NoneSo(store, d)
    ensures NotSentinel(claim)
  {
    hide Selector, Selected;
  }

  lemma SentinelStep(w: World, d: Key, pc: Pc, inp: Input)
    requires ThreadOk(w, d, pc) && d.kind == DirectoryService && NoneSo(w.store, d)
    ensures var next := Resume(d, pc, Perform(w, CallOf(d, pc), inp).reply);
            Sows(next) ==> NotSentinel(ClaimIn(next.obj))
  {
    hide Perform, CallOf, Resume, Resolve, NoneSo, IsSeed;
    var reply := Perform(w, CallOf(d, pc), inp).reply;
    var next := Resume(d, pc, reply);
    EarlyNext(d, pc, reply);
    if Sows(next) {
      Sowing(d, pc, reply);
      if pc.stage.ServiceClaimList? || pc.stage.SetList? {
        var template := pc.cr.spec.pod.claim;
        ResolveKeepsTemplate(template, None);
        if reply.Listed? {
          ListedNow(w, d, pc, inp);
          ResolvedIsSeed(w.store, d, template, reply.items);
          SeedIsNoSentinel(w.store, d, template, Resolve(template, Some(reply.items)));
        }
      }
    }
  }

  ghost predicate AlwaysNoneSo(tools: Tools, s: System, run: seq<Label>, d: Key)
    decreases |run|
  {
    NoneSo(s.world.store, d) && (run != [] ==> AlwaysNoneSo(tools, Do(tools, s, run[0]), run[1..], d))
  }

  lemma {:induction false} DraftsAreNoSentinels(tools: Tools, s: System, run: seq<Label>, d: Key)
    requires Sound(s) && d.kind == DirectoryService && AlwaysNoneSo(tools, s, run, d)
    requires Sows(PcOf(s, d)) ==> NotSentinel(ClaimIn(PcOf(s, d).obj))
    ensures var pc := PcOf(Exec(tools, s, run), d);
            Sows(pc) ==> NotSentinel(ClaimIn(pc.obj))
    decreases |run|
  {
    hide Perform, CallOf, Resume, Outside, Sound, NoneSo;
    if run == [] {
    } else {
      SoundKept(tools, s, run[0]);
      if run[0].Step? && run[0].req == d {
        assert ThreadOk(s.world, d, PcOf(s, d)) by { ThreadSound(s, d); }
        SentinelStep(s.world, d, PcOf(s, d), run[0].inp);
      }
      DraftsAreNoSentinels(tools, Do(tools, s, run[0]), run[1..], d);
    }
  }

  lemma ThreadSound(s: System, req: Key)
    requires Sound(s)
    ensures ThreadOk(s.world, req, PcOf(s, req)) && Ready(req.kind, PcOf(s, req))
  {
  }

  /** Over every run, also when listings fail: no claim and no StatefulSet that a service creates has a data source
      of the name `$(latest)`, as long as the service has no snapshot that is really called so. */
  lemma SentinelNeverStored(tools: Tools, s: System, run: seq<Label>, d: Key, inp: Input, key: Key)
    requires Sound(s) && d.kind == DirectoryService && d !in s.threads && AlwaysNoneSo(tools, s, run, d)
    requires key.kind == Claim || key.kind == StatefulSet
    ensures var before := Exec(tools, s, run);
            var after := Move(before, d, inp);
            key !in before.world.store && key in after.world.store ==> NotSentinel(ClaimIn(after.world.store[key]))
  {
    hide Perform, CallOf, Resume, Exec, Sound, ThreadOk, Move;
    var before := Exec(tools, s, run);
    SoundRuns(tools, s, run);
    DraftsAreNoSentinels(tools, s, run, d);
    if key !in before.world.store && key in Move(before, d, inp).world.store {
      CreatedAsDrafted(before, d, inp, key);
    }
  }

  lemma CreatedAsDrafted(s: System, d: Key, inp: Input, key: Key)
    requires Sound(s) && d.kind == DirectoryService && (key.kind == Claim || key.kind == StatefulSet)
    requires key !in s.world.store && key in Move(s, d, inp).world.store
    ensures Sows(PcOf(s, d)) && Target(d, PcOf(s, d).stage) == key
    ensures ClaimIn(Move(s, d, inp).world.store[key]) == ClaimIn(PcOf(s, d).obj)
  {
    hide Perform, CallOf, Resume, Drafted, InStep;
    assert ThreadOk(s.world, d, PcOf(s, d));
    Creation(s.world, d, PcOf(s, d), inp, key);
  }
}
