/** Claims come before replicas (controllers/directoryservice_controller.go, controllers/pvc.go, controllers/sts.go). */
module Precreation {
  import opened Naming
  import opened Cluster
  import opened Listing
  import opened Controllers
  import opened Runs
  import opened Separation

  ghost predicate Covered(store: Store, service: Key, n: int) {
    forall i: nat :: i < n ==> ClaimKey(service, i) in store
  }

  function ClaimKey(service: Key, ordinal: nat): Key {
    Key(Claim, service.namespace, DataClaim(service.name, ordinal))
  }

  /** Nobody else deletes a claim of an ordinal below the stored replicas, or one that a reconcile in flight has
      just made sure of, and nobody raises the replicas of the StatefulSet. Claims that are left over after
      scaling down may go. */
  ghost predicate Permitted(s: System, l: Label, service: Key) {
    var key, store := Target(service, Set), s.world.store;
    && (forall i: nat :: l == Remove(ClaimKey(service, i)) ==>
          i >= Assured(PcOf(s, service))
              && (key in store && store[key].spec.SetObject? ==> i >= store[key].spec.replicas))
    && (l.Edit? && l.key == key ==>
          && key in store && store[key].spec.SetObject?
          && l.obj.spec.SetObject? && l.obj.spec.templateName == store[key].spec.templateName
          && l.obj.spec.replicas <= store[key].spec.replicas)
  }

  /** How many ordinals a reconcile has made sure of. */
  function Assured(pc: Pc): int {
    if !(pc.At? || pc.Creating? || pc.Updating?) then 0
    else if pc.stage.ServiceClaim? || pc.stage.ServiceClaimList? then pc.stage.ordinal
    else if PastClaims(pc.stage) && pc.cr.spec.ServiceSpec? then pc.cr.spec.replicas
    else 0
  }

  /** The stages after the claims, up to the creation of a snapshot. */
  predicate PastClaims(st: Stage) {
    || st.Secrets? || st.Set? || st.SetList? || st.Proxy? || st.Headless?
    || st.SnapClock? || st.SnapCreate?
  }

  ghost predicate SetCovered(store: Store, service: Key) {
    var key := Target(service, Set);
    key in store ==>
      && store[key].spec.SetObject? && store[key].spec.templateName == "data"
      && Covered(store, service, store[key].spec.replicas)
  }

  ghost predicate Inv(s: System, service: Key) {
    && SetCovered(s.world.store, service)
    && Covered(s.world.store, service, Assured(PcOf(s, service)))
  }

  lemma CoveredKept(store: Store, store': Store, service: Key, n: int)
    requires Covered(store, service, n)
    requires forall i: nat :: i < n && ClaimKey(service, i) in store ==> ClaimKey(service, i) in store'
    ensures Covered(store', service, n)
  {
    assert forall i: nat :: i < n ==> ClaimKey(service, i) in store';
  }

  lemma AssuredContinues(req: Key, st: Stage, cr: Object, reply: Reply)
    requires Fits(req.kind, st, cr) && !IsUpsert(st) && !st.BackupLookup? && !st.RestoreLookup?
    ensures Assured(Continued(req, st, cr, reply)) <= Assured(At(st, cr)) || Assured(Continued(req, st, cr, reply)) <= 0
  {
    hide Synchronised, Fresh, Resolve;
  }

  lemma AssuredByUpsert(req: Key, st: Stage, cr: Object, reply: Reply)
    requires Fits(req.kind, st, cr) && IsUpsert(st)
    ensures var next := Upserted(req, st, cr, reply);
            || Assured(next) <= Assured(At(st, cr)) || Assured(next) <= 0
            || (st.ServiceClaim? && reply.Found? && Assured(next) <= Assured(At(st, cr)) + 1)
  {
  }

  /** A reconcile is sure of one more ordinal only when it has just found or made that claim. */
  lemma AssuredGrows(req: Key, pc: Pc, reply: Reply)
    requires Ready(req.kind, pc) && !pc.Finished?
    ensures var next := Resume(req, pc, reply);
            || Assured(next) <= Assured(pc) || Assured(next) <= 0
            || (!pc.Start? && pc.stage.ServiceClaim? && reply.Found? && Assured(next) <= Assured(pc) + 1)
  {
    if pc.At? && !IsUpsert(pc.stage) && !pc.stage.BackupLookup? && !pc.stage.RestoreLookup? {
      AssuredContinues(req, pc.stage, pc.cr, reply);
    } else if pc.At? && IsUpsert(pc.stage) {
      AssuredByUpsert(req, pc.stage, pc.cr, reply);
    }
  }

  /** A StatefulSet changes only by its own service's reconcile, which then sets its replicas. */
  lemma SetChanges(w: World, req: Key, pc: Pc, inp: Input, key: Key)
    requires ThreadOk(w, req, pc) && IsCustom(req.kind) && key.kind == StatefulSet
    ensures var store := Perform(w, CallOf(req, pc), inp).world.store;
            key in store ==>
              || (key in w.store && store[key] == w.store[key])
              || (&& !pc.Start? && pc.stage.Set? && key == Target(req, Set)
                  && store[key].spec.SetObject? && store[key].spec.replicas == pc.cr.spec.replicas
                  && (key in w.store && w.store[key].spec.SetObject?
                      ==> store[key].spec.templateName == w.store[key].spec.templateName)
                  && (key !in w.store ==> store[key].spec.templateName == "data"))
  {
    hide Perform, CallOf, Fresh, Adjusted;
    StepEffect(w, req, pc, inp);
    if !pc.Start? && !pc.Finished? && pc.stage.Set? {
      SetDrafted(req, pc);
    }
  }

  lemma SetDrafted(req: Key, pc: Pc)
    requires Ready(req.kind, pc) && !pc.Start? && !pc.Finished? && pc.stage.Set?
    requires pc.Creating? ==> Drafted(req, pc.stage, pc.cr, pc.obj)
    ensures pc.Creating? ==>
              pc.obj.spec.SetObject? && pc.obj.spec.replicas == pc.cr.spec.replicas
                  && pc.obj.spec.templateName == "data"
    ensures pc.Updating? ==>
              var image := pc.cr.spec.pod.image;
              Adjusted(req, pc.stage, pc.cr, pc.seen).spec
              == pc.seen.spec.(replicas := pc.cr.spec.replicas, dsImage := image, initImage := image)
  {
  }

  lemma ClaimsStay(w: World, req: Key, pc: Pc, inp: Input, service: Key, n: int)
    requires ThreadOk(w, req, pc) && Covered(w.store, service, n)
    ensures Covered(Perform(w, CallOf(req, pc), inp).world.store, service, n)
  {
    var w' := Perform(w, CallOf(req, pc), inp).world;
    forall i: nat | i < n
      ensures ClaimKey(service, i) in w'.store
    {
      StepPreserves(w, req, pc, inp, ClaimKey(service, i));
    }
    CoveredKept(w.store, w'.store, service, n);
  }

  /** The StatefulSet gets the replicas of a custom resource whose claims are all there. */
  lemma SetStep(w: World, service: Key, req: Key, pc: Pc, inp: Input)
    requires ThreadOk(w, req, pc) && IsCustom(req.kind) && service.kind == DirectoryService
    requires SetCovered(w.store, service) && (req == service ==> Covered(w.store, service, Assured(pc)))
    ensures SetCovered(Perform(w, CallOf(req, pc), inp).world.store, service)
  {
    var key := Target(service, Set);
    SetChanges(w, req, pc, inp, key);
    if key in w.store {
      ClaimsStay(w, req, pc, inp, service, w.store[key].spec.replicas);
    }
    if !pc.Start? && pc.stage.Set? && key == Target(req, Set) {
      ClaimsStay(w, req, pc, inp, service, pc.cr.spec.replicas);
    }
  }

  lemma ClaimStep(w: World, service: Key, pc: Pc, inp: Input)
    requires ThreadOk(w, service, pc) && Covered(w.store, service, Assured(pc))
    ensures var a := Perform(w, CallOf(service, pc), inp);
            Covered(a.world.store, service, Assured(Resume(service, pc, a.reply)))
  {
    hide Perform, Resume;
    var a := Perform(w, CallOf(service, pc), inp);
    ClaimsStay(w, service, pc, inp, service, Assured(pc));
    AssuredGrows(service, pc, a.reply);
    if !pc.Start? && pc.stage.ServiceClaim? && a.reply.Found? {
      ReplyIsStored(w, CallOf(service, pc), inp, Target(service, pc.stage));
      assert Covered(a.world.store, service, Assured(pc) + 1);
    }
  }

  /** Others leave the claims of the first `n` ordinals, if none of these is deleted. */
  lemma ClaimsLeft(tools: Tools, w: World, l: Label, service: Key, n: int)
    requires !l.Step? && !l.Crash? && Covered(w.store, service, n)
    requires forall i: nat :: l == Remove(ClaimKey(service, i)) ==> i >= n
    ensures Covered(Outside(tools, w, l).store, service, n)
  {
    hide Outside;
    forall i: nat | i < n
      ensures ClaimKey(service, i) in Outside(tools, w, l).store
    {
      StaysUnlessRemoved(tools, w, l, ClaimKey(service, i));
    }
  }

  lemma StaysUnlessRemoved(tools: Tools, w: World, l: Label, key: Key)
    requires !l.Step? && !l.Crash? && key in w.store && l != Remove(key)
    ensures key in Outside(tools, w, l).store
  {
  }

  lemma OutsideKept(tools: Tools, s: System, l: Label, service: Key)
    requires !l.Step? && !l.Crash? && Permitted(s, l, service) && Inv(s, service)
    ensures SetCovered(Outside(tools, s.world, l).store, service)
    ensures Covered(Outside(tools, s.world, l).store, service, Assured(PcOf(s, service)))
  {
    hide Covered, Assured;
    var w, key := s.world, Target(service, Set);
    ClaimsLeft(tools, w, l, service, Assured(PcOf(s, service)));
    if key in w.store {
      var n := w.store[key].spec.replicas;
      ClaimsLeft(tools, w, l, service, n);
      var store := Outside(tools, w, l).store;
      if key in store {
        FewerCovered(store, service, n, store[key].spec.replicas);
      }
    }
  }

  lemma FewerCovered(store: Store, service: Key, n: int, m: int)
    requires Covered(store, service, n) && m <= n
    ensures Covered(store, service, m)
  {
  }

  lemma InvKept(tools: Tools, s: System, l: Label, service: Key)
    requires Sound(s) && Inv(s, service) && Permitted(s, l, service)
    requires service.kind == DirectoryService && (l.Step? ==> IsCustom(l.req.kind))
    ensures Inv(Do(tools, s, l), service)
  {
    hide Perform, Resume, CallOf, Outside, SetCovered, Permitted;
    if l.Step? {
      var pc := PcOf(s, l.req);
      assert ThreadOk(s.world, l.req, pc);
      SetStep(s.world, service, l.req, pc, l.inp);
      if l.req == service {
        ClaimStep(s.world, service, pc, l.inp);
      } else {
        ClaimsStay(s.world, l.req, pc, l.inp, service, Assured(PcOf(s, service)));
      }
    } else if !l.Crash? {
      OutsideKept(tools, s, l, service);
    }
  }

  ghost predicate AllPermitted(tools: Tools, s: System, run: seq<Label>, service: Key)
    decreases |run|
  {
    run != [] ==>
      && Permitted(s, run[0], service)
      && (run[0].Step? ==> IsCustom(run[0].req.kind))
      && AllPermitted(tools, Do(tools, s, run[0]), run[1..], service)
  }

  lemma {:induction false} InvRuns(tools: Tools, s: System, run: seq<Label>, service: Key)
    requires Sound(s) && Inv(s, service) && AllPermitted(tools, s, run, service)
    requires service.kind == DirectoryService
    ensures Inv(Exec(tools, s, run), service)
    decreases |run|
  {
    if run == [] {
    } else {
      SoundKept(tools, s, run[0]);
      InvKept(tools, s, run[0], service);
      InvRuns(tools, Do(tools, s, run[0]), run[1..], service);
    }
  }

  /** In every state of every run, over scaling up and down, the deletion of claims left over from scaling down,
      failures at any call, restarts and retries, each ordinal of the stored StatefulSet has the claim that its
      own template would ask for. */
  lemma ClaimsPrecedeReplicas(tools: Tools, s: System, run: seq<Label>, service: Key, ordinal: nat)
    requires Sound(s) && s.threads == map[] && AllPermitted(tools, s, run, service)
    requires service.kind == DirectoryService && Target(service, Set) !in s.world.store
    ensures var store := Exec(tools, s, run).world.store;
            var key := Target(service, Set);
            key in store ==>
              && store[key].spec.SetObject?
              && (ordinal < store[key].spec.replicas ==>
                    Key(Claim, service.namespace,
                        TemplateClaim(store[key].spec.templateName, service.name, ordinal)) in store)
  {
    hide Exec, AllPermitted, Covered;
    assert Inv(s, service) by { EmptyCovered(s.world.store, service); }
    InvRuns(tools, s, run, service);
    assert "data-" + service.name == "data" + "-" + service.name;
    assert TemplateClaim("data", service.name, ordinal) == DataClaim(service.name, ordinal);
    var store, key := Exec(tools, s, run).world.store, Target(service, Set);
    if key in store && ordinal < store[key].spec.replicas {
      CoveredHas(store, service, store[key].spec.replicas, ordinal);
    }
  }

  lemma EmptyCovered(store: Store, service: Key)
    requires Target(service, Set) !in store
    ensures SetCovered(store, service) && Covered(store, service, 0)
  {
  }

  lemma CoveredHas(store: Store, service: Key, n: int, ordinal: nat)
    requires Covered(store, service, n) && ordinal < n
    ensures Key(Claim, service.namespace, DataClaim(service.name, ordinal)) in store
  {
    assert ClaimKey(service, ordinal) in store;
  }

  /** In every run, an automatic snapshot that is being created is one of an existing claim of the service,
      provided the instance to snapshot is among its replicas. */
  lemma SnapshotsAreOfOwnClaims(tools: Tools, s: System, run: seq<Label>, service: Key)
    requires Sound(s) && s.threads == map[] && AllPermitted(tools, s, run, service)
    requires service.kind == DirectoryService && Target(service, Set) !in s.world.store
    ensures var end := Exec(tools, s, run);
            var pc := PcOf(end, service);
            pc.Creating? && pc.stage.SnapCreate? && Typed(DirectoryService, pc.cr)
              && 0 <= pc.cr.spec.schedule.instance < pc.cr.spec.replicas ==>
              && pc.obj.spec.SnapshotObject?
              && pc.obj.spec.source == DataClaim(service.name, pc.cr.spec.schedule.instance)
              && Key(Claim, service.namespace, pc.obj.spec.source) in end.world.store
  {
    hide Exec, AllPermitted, Covered, InStep, StandardLabels, NewMeta, SetCovered;
    assert Inv(s, service) by { EmptyCovered(s.world.store, service); }
    InvRuns(tools, s, run, service);
    SoundRuns(tools, s, run);
    var end := Exec(tools, s, run);
    var pc := PcOf(end, service);
    if service in end.threads {
      assert ThreadOk(end.world, service, pc);
      if && pc.Creating? && pc.stage.SnapCreate?
         && 0 <= pc.cr.spec.schedule.instance < pc.cr.spec.replicas {
        CoveredHas(end.world.store, service, pc.cr.spec.replicas, pc.cr.spec.schedule.instance);
      }
    }
  }

  // ------------------------------------------------------------------- updating agrees with creating

  /** Only the replicas and the images of a StatefulSet differ. */
  predicate SameButScale(a: Spec, b: Spec) {
    && a.SetObject? && b.SetObject?
    && b == a.(replicas := b.replicas, dsImage := b.dsImage, initImage := b.initImage)
  }

  /** Over any run a StatefulSet keeps everything else of its creation. */
  lemma {:induction false} SetKeepsItsTemplate(tools: Tools, s: System, run: seq<Label>, key: Key)
    requires Sound(s) && key.kind == StatefulSet && key in s.world.store && s.world.store[key].spec.SetObject?
    requires forall i :: 0 <= i < |run| ==> !Touches(run[i], key)
    ensures var store := Exec(tools, s, run).world.store;
            key in store && SameButScale(s.world.store[key].spec, store[key].spec)
    decreases |run|
  {
    if run == [] {
    } else {
      var l := run[0];
      SoundKept(tools, s, l);
      if l.Step? {
        assert ThreadOk(s.world, l.req, PcOf(s, l.req));
        StepPreserves(s.world, l.req, PcOf(s, l.req), l.inp, key);
      } else if !l.Crash? {
        OutsideKeepsSpec(tools, s.world, l, key);
      }
      SetKeepsItsTemplate(tools, Do(tools, s, l), run[1..], key);
    }
  }

  /** The StatefulSet has the replicas and the image of the custom resource, in both of its containers. */
  predicate ScaledAs(cr: Object, spec: Spec)
    requires Typed(DirectoryService, cr)
  {
    && spec.SetObject? && spec.replicas == cr.spec.replicas
    && spec.dsImage == cr.spec.pod.image && spec.initImage == cr.spec.pod.image
  }

  /** Which is what creating it afresh gives it. */
  lemma FreshIsScaled(req: Key, cr: Object, claim: ClaimSpec)
    requires req.kind == DirectoryService && Typed(DirectoryService, cr)
    ensures ScaledAs(cr, Fresh(req, Set, cr, claim).spec)
  {
  }

  /** A reconcile goes on from its StatefulSet only once that is scaled as its custom resource says. */
  lemma SetIsScaled(w: World, req: Key, pc: Pc, inp: Input)
    requires ThreadOk(w, req, pc) && !pc.Start? && pc.stage.Set?
    ensures var a := Perform(w, CallOf(req, pc), inp);
            var key := Target(req, Set);
            Resume(req, pc, a.reply) == At(Proxy, pc.cr) ==>
              key in a.world.store && ScaledAs(pc.cr, a.world.store[key].spec)
  {
    hide Looked, Scheduled, Synchronised, Begin, Resolve, NewMeta, Owner;
    ReplyIsStored(w, CallOf(req, pc), inp, Target(req, Set));
  }

  /** The step with which a reconcile of `d` succeeds at its StatefulSet. */
  ghost predicate SetDone(s: System, d: Key, inp: Input) {
    var pc := PcOf(s, d);
    && !pc.Start? && !pc.Finished? && pc.stage.Set?
    && PcOf(Move(s, d, inp), d) == At(Proxy, pc.cr)
  }

  /** Updating agrees with creating. After any run, through edits of the custom resource, scaling, failures and
      retries, once a reconcile has succeeded at the StatefulSet and the custom resource has not been changed
      under its hands: the stored StatefulSet has the replicas and images that creating it afresh from the
      stored custom resource would give, and in everything else it is what it was at any earlier time, its
      creation included, unless somebody else has edited it. */
  lemma UpdateAgreesWithCreate(tools: Tools, s: System, run: seq<Label>, d: Key, inp: Input)
    requires Sound(s) && d.kind == DirectoryService && SetDone(Exec(tools, s, run), d, inp)
    ensures var before, end := Exec(tools, s, run), Exec(tools, s, run + [Step(d, inp)]);
            var key, cr := Target(d, Set), PcOf(before, d).cr;
            && key in end.world.store
            && Typed(DirectoryService, cr) && ScaledAs(cr, end.world.store[key].spec)
            && (d in end.world.store && end.world.store[d].meta.version == cr.meta.version ==>
                  && Typed(DirectoryService, end.world.store[d])
                  && ScaledAs(end.world.store[d], end.world.store[key].spec))
            && (key in s.world.store && s.world.store[key].spec.SetObject?
                && (forall i :: 0 <= i < |run| ==> !Touches(run[i], key)) ==>
                  SameButScale(s.world.store[key].spec, end.world.store[key].spec))
  {
    hide Perform, CallOf, Resume, Exec, ScaledAs;
    var before, key := Exec(tools, s, run), Target(d, Set);
    SoundRuns(tools, s, run);
    assert ThreadOk(before.world, d, PcOf(before, d));
    SetIsScaled(before.world, d, PcOf(before, d), inp);
    ExecOne(tools, s, run, Step(d, inp));
    SoundKept(tools, before, Step(d, inp));
    assert ThreadOk(Do(tools, before, Step(d, inp)).world, d, At(Proxy, PcOf(before, d).cr));
    if key in s.world.store && s.world.store[key].spec.SetObject? && forall i :: 0 <= i < |run| ==>
        !Touches(run[i], key) {
      SetKeepsItsTemplate(tools, s, run, key);
      StepPreserves(before.world, d, PcOf(before, d), inp, key);
    }
  }
}
