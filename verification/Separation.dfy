/** Which objects a reconcile may touch: specs that never change, names that may collide, and snapshots
    that pruning must leave alone. */
module Separation {
  import opened Text
  import opened Naming
  import opened Cluster
  import opened Listing
  import opened Controllers
  import opened Runs

  // ---------------------------------------------------------------------------- immutability

  /** What no reconcile changes of an object that exists: identity, labels, and the spec except for the
      replicas and images of a StatefulSet; the status of anything but its own custom resource. */
  ghost predicate Preserved(req: Key, key: Key, o: Object, o': Object) {
    && o'.meta.uid == o.meta.uid && o'.meta.created == o.meta.created && o'.meta.labels == o.meta.labels
    && (key.kind != StatefulSet ==> o'.spec == o.spec)
    && (key != req ==> o'.status == o.status)
    && (o.spec.SetObject? ==>
          && o'.spec.SetObject?
          && o'.spec == o.spec.(replicas := o'.spec.replicas, dsImage := o'.spec.dsImage,
                initImage := o'.spec.initImage))
  }

  lemma StepPreserves(w: World, req: Key, pc: Pc, inp: Input, key: Key)
    requires ThreadOk(w, req, pc) && key in w.store
    ensures var w' := Perform(w, CallOf(req, pc), inp).world;
            && (key !in w'.store ==> key.kind == Snapshot && req.kind == DirectoryService)
            && (key in w'.store ==> Preserved(req, key, w.store[key], w'.store[key]))
  {
    hide Perform, CallOf, Fresh, Adjusted, Target;
    StepEffect(w, req, pc, inp);
    if pc.Updating? {
      AdjustedKeeps(req, pc.stage, pc.cr, pc.seen);
    }
  }

  lemma AdjustedKeeps(req: Key, st: Stage, cr: Object, o: Object)
    requires Fits(req.kind, st, cr) && IsUpsert(st) && Typed(TargetKind(st), o)
    ensures forall tag :: Preserved(req, Target(req, st), o, Versioned(Adjusted(req, st, cr, o), tag))
  {
  }

  predicate Touches(l: Label, key: Key) {
    (l.Edit? || l.Remove?) && l.key == key
  }

  predicate SameSpec(key: Key, store: Store, store': Store)
    requires key in store
  {
    && key in store'
    && store'[key].spec == store[key].spec
    && store'[key].meta.uid == store[key].meta.uid
    && store'[key].meta.labels == store[key].meta.labels
  }

  /** Of the rest of the cluster, only the end of a job changes an object that nobody edits or deletes. */
  lemma OutsideKeeps(tools: Tools, w: World, l: Label, key: Key)
    requires !l.Step? && !l.Crash? && !Touches(l, key)
    ensures var store := Outside(tools, w, l).store;
            && (key in store <==> key in w.store)
            && (key in store ==>
                  || store[key] == w.store[key]
                  || (&& l == RunJob(key, l.tag) && Typed(Job, w.store[key]) && w.store[key].status.completed.None?
                      && store[key] == Versioned(w.store[key].(status := store[key].status), l.tag)
                      && store[key].status == JobStatus(Some(w.clock), w.store[key].status.succeeded + 1,
                            w.store[key].status.failed)))
  {
    if l.Provision? || l.Cut? || l.Tick? || l.Write? || l.Enroll? {
      assert Outside(tools, w, l).store == w.store;
    }
  }

  lemma OutsideKeepsSpec(tools: Tools, w: World, l: Label, key: Key)
    requires !l.Step? && !l.Crash? && key in w.store && !Touches(l, key)
    ensures SameSpec(key, w.store, Outside(tools, w, l).store)
  {
    hide Outside;
    OutsideKeeps(tools, w, l, key);
  }

  lemma DoKeepsSpec(tools: Tools, s: System, l: Label, key: Key)
    requires Sound(s) && key in s.world.store && !Touches(l, key)
    requires key.kind != StatefulSet && key.kind != Snapshot
    ensures SameSpec(key, s.world.store, Do(tools, s, l).world.store)
  {
    if l.Step? {
      assert ThreadOk(s.world, l.req, PcOf(s, l.req));
      StepPreserves(s.world, l.req, PcOf(s, l.req), l.inp, key);
    } else if !l.Crash? {
      OutsideKeepsSpec(tools, s.world, l, key);
    }
  }

  /** Over any run, a claim keeps its spec, and a custom resource keeps the spec its user gave it,
      the `$(latest)` sentinel included. */
  lemma {:induction false} SpecNeverRewritten(tools: Tools, s: System, run: seq<Label>, key: Key)
    requires Sound(s) && key in s.world.store
    requires key.kind != StatefulSet && key.kind != Snapshot
    requires forall i :: 0 <= i < |run| ==> !Touches(run[i], key)
    ensures SameSpec(key, s.world.store, Exec(tools, s, run).world.store)
    decreases |run|
  {
    if run == [] {
    } else {
      SoundKept(tools, s, run[0]);
      DoKeepsSpec(tools, s, run[0], key);
      SpecNeverRewritten(tools, Do(tools, s, run[0]), run[1..], key);
    }
  }

  // ----------------------------------------------------------------------------- name separation

  ghost predicate IsDataClaim(req: Key, key: Key) {
    && key.kind == Claim && key.namespace == req.namespace
    && exists i: nat :: key.name == DataClaim(req.name, i)
  }

  ghost predicate IsAutoSnapshot(req: Key, key: Key) {
    && key.kind == Snapshot && key.namespace == req.namespace
    && exists now: nat :: key.name == AutoSnapshot(req.name, now)
  }

  /** The objects a reconcile of `req` may create or update. */
  ghost predicate Owns(req: Key, key: Key) {
    match req.kind
    case DirectoryBackup =>
      || key == req || key == Target(req, BackupClaim) || key == Target(req, BackupSnapshot)
      || key == Target(req, BackupClone) || key == Target(req, BackupJob)
    case DirectoryRestore =>
      || key == req || key == Key(Snapshot, req.namespace, Temp(req.name))
      || key == Key(Claim, req.namespace, Temp(req.name)) || key == JobKey(req)
    case DirectoryService =>
      || key == req || IsDataClaim(req, key) || IsAutoSnapshot(req, key)
      || key == Target(req, Set) || key == Target(req, Headless)
    case _ => false
  }

  lemma TargetIsOwned(req: Key, st: Stage)
    requires StageKind(st) == req.kind
    ensures Owns(req, Target(req, st))
  {
  }

  /** The collisions that `temp-` prefixes, shared job names and user-chosen names allow. */
  ghost predicate NamesApart(a: Key, b: Key) {
    || a.namespace != b.namespace
    || match (a.kind, b.kind) {
         case (DirectoryBackup, DirectoryBackup) => a.name != Temp(b.name) && b.name != Temp(a.name)
         case (DirectoryBackup, DirectoryRestore) => a.name != b.name && a.name != Temp(b.name)
         case (DirectoryRestore, DirectoryBackup) => a.name != b.name && b.name != Temp(a.name)
         case (DirectoryBackup, DirectoryService) => ServiceApart(b.name, a.name) && TempApart(b.name, a.name)
         case (DirectoryService, DirectoryBackup) => ServiceApart(a.name, b.name) && TempApart(a.name, b.name)
         case (DirectoryRestore, DirectoryService) => TempApart(b.name, a.name)
         case (DirectoryService, DirectoryRestore) => TempApart(a.name, b.name)
         case _ => true
       }
  }

  ghost predicate ServiceApart(service: string, name: string) {
    forall i: nat :: DataClaim(service, i) != name
  }

  ghost predicate TempApart(service: string, name: string) {
    forall now: nat :: AutoSnapshot(service, now) != Temp(name)
  }

  ghost predicate Disjoint(a: Key, b: Key) {
    forall key :: !(Owns(a, key) && Owns(b, key))
  }

  /** Two custom resources never write the same object exactly when their names are apart. */
  lemma DisjointIffNamesApart(a: Key, b: Key)
    requires IsCustom(a.kind) && IsCustom(b.kind) && a != b
    ensures Disjoint(a, b) <==> NamesApart(a, b)
  {
    if NamesApart(a, b) {
      forall key | Owns(a, key) && Owns(b, key)
        ensures false
      {
        ApartNeverMeet(a, b, key);
      }
    } else {
      ClashMeets(a, b);
    }
  }

  lemma ApartNeverMeet(a: Key, b: Key, key: Key)
    requires IsCustom(a.kind) && IsCustom(b.kind) && a != b && NamesApart(a, b)
    ensures !(Owns(a, key) && Owns(b, key))
  {
    if Owns(a, key) && Owns(b, key) {
      if a.kind == DirectoryService && b.kind == DirectoryService {
        hide NamesApart;
        ServicesNeverMeet(a, b, key);
      } else if a.kind == DirectoryService {
        hide Owns;
        ServiceNeverMeets(a, b, key);
      } else if b.kind == DirectoryService {
        hide Owns;
        ServiceNeverMeets(b, a, key);
      } else {
        TempInjective(a.name, b.name);
      }
    }
  }

  lemma ServicesNeverMeet(a: Key, b: Key, key: Key)
    requires a.kind == DirectoryService && b.kind == DirectoryService && a != b
    ensures !(Owns(a, key) && Owns(b, key))
  {
    if IsDataClaim(a, key) && IsDataClaim(b, key) {
      var i: nat :| key.name == DataClaim(a.name, i);
      var j: nat :| key.name == DataClaim(b.name, j);
      DataClaimInjective(a.name, i, b.name, j);
    } else if IsAutoSnapshot(a, key) && IsAutoSnapshot(b, key) {
      var i: nat :| key.name == AutoSnapshot(a.name, i);
      var j: nat :| key.name == AutoSnapshot(b.name, j);
      AutoSnapshotInjective(a.name, i, b.name, j);
    }
  }

  lemma ServiceNeverMeets(service: Key, other: Key, key: Key)
    requires service.kind == DirectoryService && IsCustom(other.kind) && other.kind != DirectoryService
    requires NamesApart(service, other) && Owns(service, key)
    ensures !Owns(other, key)
  {
    if IsDataClaim(service, key) {
      var i: nat :| key.name == DataClaim(service.name, i);
      DataIsNotTemp(service.name, i, other.name);
    }
  }

  lemma ClashMeets(a: Key, b: Key)
    requires IsCustom(a.kind) && IsCustom(b.kind) && a != b && !NamesApart(a, b)
    ensures !Disjoint(a, b)
  {
    if a.kind == DirectoryService {
      ServiceClash(a, b);
    } else if b.kind == DirectoryService {
      ServiceClash(b, a);
    } else {
      var n := a.namespace;
      var claims := [Key(Claim, n, a.name), Key(Claim, n, b.name), Key(Claim, n, Temp(a.name)),
                     Key(Claim, n, Temp(b.name))];
      assert Owns(a, Key(Job, n, a.name)) && Owns(b, Key(Job, n, b.name));
      assert Owns(a, claims[2]) && Owns(b, claims[3]);
      assert a.kind == DirectoryBackup ==> Owns(a, claims[0]);
      assert b.kind == DirectoryBackup ==> Owns(b, claims[1]);
    }
  }

  lemma ServiceClash(service: Key, other: Key)
    requires service.kind == DirectoryService && IsCustom(other.kind)
    requires service != other && (!NamesApart(service, other) || !NamesApart(other, service))
    ensures exists key :: Owns(service, key) && Owns(other, key)
  {
    if !TempApart(service.name, other.name) {
      var now: nat :| AutoSnapshot(service.name, now) == Temp(other.name);
      var key := Key(Snapshot, service.namespace, Temp(other.name));
      assert IsAutoSnapshot(service, key);
      assert Owns(service, key) && Owns(other, key);
    } else {
      var i: nat :| DataClaim(service.name, i) == other.name;
      var key := Key(Claim, service.namespace, other.name);
      assert IsDataClaim(service, key);
      assert Owns(service, key) && Owns(other, key);
    }
  }

  // ---------------------------------------------------------------------- pruning leaves others alone

  /** The snapshot does not carry the service's labels, and no prune in flight has it on its list. */
  ghost predicate Shielded(s: System, service: Key, key: Key) {
    && Unlabelled(s.world.store, service, key)
    && (service in s.threads ==> NotListed(s.threads[service], service, key))
  }

  ghost predicate NotListed(pc: Pc, service: Key, key: Key) {
    pc.At? && pc.stage.Prune? && key.namespace == service.namespace ==>
      forall i :: 0 <= i < |pc.stage.items| ==> pc.stage.items[i].name != key.name
  }

  /** Nobody gives the snapshot the service's labels. */
  predicate LeavesUnlabelled(l: Label, service: Key, key: Key) {
    l.Edit? && l.key == key ==> !Matches(Selector(service), l.obj.meta.labels)
  }

  /** Labels the operator puts on a snapshot are found by the service that made it and by no other. */
  lemma FreshLabelsMatch(req: Key, st: Stage, cr: Object, claim: ClaimSpec, service: Key)
    requires Fits(req.kind, st, cr) && IsUpsert(st) && TargetKind(st) == Snapshot
    requires service.kind == DirectoryService
    ensures Matches(Selector(service), Fresh(req, st, cr, claim).meta.labels)
            <==> (req.kind == DirectoryService && req.name == service.name)
  {
    var labels := Fresh(req, st, cr, claim).meta.labels;
    if req.kind != DirectoryService {
      assert labels["app.kubernetes.io/controller"] != Selector(service)["app.kubernetes.io/controller"] by {
        assert KindName(DirectoryService)[|KindName(DirectoryService)| - 1] == 'e';
        assert KindName(DirectoryBackup)[9] == 'B';
        assert KindName(DirectoryRestore)[9] == 'R';
        assert KindName(DirectoryService)[9] == 'S';
      }
      assert "app.kubernetes.io/controller" in Selector(service);
    } else if req.name != service.name {
      assert labels["app.kubernetes.io/instance"] != Selector(service)["app.kubernetes.io/instance"];
      assert "app.kubernetes.io/instance" in Selector(service);
    }
  }

  /** One snapshot does not carry the labels of two services. */
  lemma OneService(labels: Labels, x: Key, y: Key)
    requires x.kind == DirectoryService && y.kind == DirectoryService
    requires Matches(Selector(x), labels) && Matches(Selector(y), labels)
    ensures x.name == y.name
  {
    assert "app.kubernetes.io/instance" in Selector(x) && "app.kubernetes.io/instance" in Selector(y);
  }

  lemma ListingSkips(w: World, service: Key, key: Key, items: seq<Item>)
    requires IsListing(w.store, service.namespace, Selector(service), items)
    requires key.kind == Snapshot && key.namespace == service.namespace
    requires key in w.store ==> !Matches(Selector(service), w.store[key].meta.labels)
    ensures forall i :: 0 <= i < |SortByCreation(items)| ==> SortByCreation(items)[i].name != key.name
  {
    SortedListing(w.store, service.namespace, Selector(service), items);
    forall i | 0 <= i < |SortByCreation(items)|
      ensures SortByCreation(items)[i].name != key.name
    {
      assert Selected(w.store, service.namespace, Selector(service), SortByCreation(items)[i].name);
    }
  }

  lemma PruneListSource(req: Key, pc: Pc, reply: Reply)
    requires Ready(req.kind, pc) && !pc.Finished?
    ensures var next := Resume(req, pc, reply);
            next.At? && next.stage.Prune? ==> pc.At? && (pc.stage.Prune? || pc.stage.SnapList?)
  {
    hide Fresh, Resolve, Adjusted, Synchronised, NextPrune;
  }

  lemma PruneListAfter(w: World, req: Key, pc: Pc, inp: Input)
    requires ThreadOk(w, req, pc)
    ensures var reply := Perform(w, CallOf(req, pc), inp).reply;
            var next := Resume(req, pc, reply);
            next.At? && next.stage.Prune? ==>
              || (pc.At? && pc.stage.Prune? && next.stage.items == pc.stage.items)
              || (&& pc.At? && pc.stage.SnapList? && IsListing(w.store, req.namespace, Selector(req), inp.listing)
                  && next.stage.items == SortByCreation(inp.listing))
  {
    hide Fresh, Resolve, Adjusted, Synchronised, Upserted, Looked;
    PruneListSource(req, pc, Perform(w, CallOf(req, pc), inp).reply);
    if pc.At? && pc.stage.SnapList? {
      assert CallOf(req, pc) == List(req.namespace, Selector(req));
    }
  }

  ghost predicate Unlabelled(store: Store, service: Key, key: Key) {
    key in store ==> !Matches(Selector(service), store[key].meta.labels)
  }

  lemma StepLeavesUnlabelled(w: World, req: Key, pc: Pc, inp: Input, service: Key, key: Key)
    requires ThreadOk(w, req, pc) && Unlabelled(w.store, service, key)
    requires service.kind == DirectoryService && key.kind == Snapshot && key.namespace == service.namespace
    requires !IsAutoSnapshot(service, key)
    ensures Unlabelled(Perform(w, CallOf(req, pc), inp).world.store, service, key)
  {
    if key in w.store {
      StepPreserves(w, req, pc, inp, key);
    } else {
      StepEffect(w, req, pc, inp);
      if pc.Creating? && Target(req, pc.stage) == key {
        FreshLabelsMatch(req, pc.stage, pc.cr, ClaimIn(pc.obj), service);
        TargetIsOwned(req, pc.stage);
      }
    }
  }

  lemma OutsideLeavesUnlabelled(tools: Tools, w: World, l: Label, service: Key, key: Key)
    requires !l.Step? && !l.Crash? && Unlabelled(w.store, service, key) && LeavesUnlabelled(l, service, key)
    ensures Unlabelled(Outside(tools, w, l).store, service, key)
  {
    if !Touches(l, key) {
      hide Outside;
      OutsideKeeps(tools, w, l, key);
    }
  }

  lemma StepSpares(w: World, service: Key, pc: Pc, inp: Input, key: Key)
    requires ThreadOk(w, service, pc) && key.kind == Snapshot && key.namespace == service.namespace
    requires Unlabelled(w.store, service, key) && NotListed(pc, service, key)
    ensures var a := Perform(w, CallOf(service, pc), inp);
            && (key in w.store ==> key in a.world.store)
            && NotListed(Resume(service, pc, a.reply), service, key)
  {
    StepEffect(w, service, pc, inp);
    PruneListAfter(w, service, pc, inp);
    if pc.At? && pc.stage.SnapList? && IsListing(w.store, service.namespace, Selector(service), inp.listing) {
      ListingSkips(w, service, key, inp.listing);
    }
  }

  /** A service prunes neither another service's snapshots, nor those of backups and restores, nor a
      snapshot made by hand without its labels: whatever is shielded stays shielded and is not deleted. */
  lemma ShieldKept(tools: Tools, s: System, l: Label, service: Key, key: Key)
    requires Sound(s) && Shielded(s, service, key) && LeavesUnlabelled(l, service, key)
    requires service.kind == DirectoryService && key.kind == Snapshot && key.namespace == service.namespace
    requires !IsAutoSnapshot(service, key)
    ensures Shielded(Do(tools, s, l), service, key)
    ensures l.Step? && l.req == service && key in s.world.store ==> key in Do(tools, s, l).world.store
  {
    hide Perform, Resume, CallOf, Outside;
    if l.Step? {
      var pc := PcOf(s, l.req);
      assert ThreadOk(s.world, l.req, pc);
      StepLeavesUnlabelled(s.world, l.req, pc, l.inp, service, key);
      if l.req == service {
        StepSpares(s.world, service, pc, l.inp, key);
      }
    } else if !l.Crash? {
      OutsideLeavesUnlabelled(tools, s.world, l, service, key);
    }
  }

  /** Over any run, pruning by `service` never deletes a shielded snapshot, which others may delete and make
      again as long as it is not named like the service's own. */
  lemma {:induction false} PruneSparesOthers(
      tools: Tools, s: System, run: seq<Label>, service: Key, key: Key, i: nat)
    requires Sound(s) && Shielded(s, service, key)
    requires service.kind == DirectoryService && key.kind == Snapshot && key.namespace == service.namespace
    requires !IsAutoSnapshot(service, key)
    requires forall j :: 0 <= j < |run| ==> LeavesUnlabelled(run[j], service, key)
    requires i < |run| && run[i].Step? && run[i].req == service
    ensures key in Exec(tools, s, run[..i]).world.store ==> key in Exec(tools, s, run[..i + 1]).world.store
    decreases |run|
  {
    SoundKept(tools, s, run[0]);
    ShieldKept(tools, s, run[0], service, key);
    var s' := Do(tools, s, run[0]);
    assert run[..i + 1][0] == run[0];
    assert run[..i + 1][1..] == run[1..][..i];
    if i == 0 {
      assert run[..i] == [] && run[..1][1..] == [];
    } else {
      assert run[..i][0] == run[0] && run[..i][1..] == run[1..][..i - 1];
      PruneSparesOthers(tools, s', run[1..], service, key, i - 1);
    }
  }

  /** The snapshot is there, carries no service's labels, and no prune in flight has it on its list. */
  ghost predicate OutOfReach(s: System, key: Key) {
    && key in s.world.store
    && forall d: Key :: d.kind == DirectoryService && d.namespace == key.namespace ==> Shielded(s, d, key)
  }

  /** A step of any custom resource leaves a stored snapshot that is shielded from it, and keeps its shields. */
  lemma SparedStep(s: System, req: Key, inp: Input, key: Key)
    requires Sound(s) && key.kind == Snapshot && key in s.world.store
    requires req.kind == DirectoryService && req.namespace == key.namespace ==> Shielded(s, req, key)
    ensures SameSpec(key, s.world.store, Move(s, req, inp).world.store)
    ensures forall y: Key :: y.kind == DirectoryService && y.namespace == key.namespace && Shielded(s, y, key) ==>
              Shielded(Move(s, req, inp), y, key)
  {
    hide Perform, Resume, CallOf, Selector, Matches, Fresh, Adjusted, Target;
    var pc := PcOf(s, req);
    assert ThreadOk(s.world, req, pc);
    StepPreserves(s.world, req, pc, inp, key);
    if req.kind == DirectoryService && req.namespace == key.namespace {
      StepSpares(s.world, req, pc, inp, key);
    } else {
      StepEffect(s.world, req, pc, inp);
    }
  }

  lemma StaysOutOfReach(tools: Tools, s: System, l: Label, key: Key)
    requires Sound(s) && key.kind == Snapshot && OutOfReach(s, key) && !Touches(l, key)
    ensures OutOfReach(Do(tools, s, l), key) && SameSpec(key, s.world.store, Do(tools, s, l).world.store)
  {
    hide Perform, Resume, CallOf, Outside, Selector, Matches;
    if l.Step? {
      hide Sound, Shielded, Move;
      SparedStep(s, l.req, l.inp, key);
    } else if !l.Crash? {
      OutsideKeeps(tools, s.world, l, key);
    }
  }

  /** Over any run, a stored snapshot that carries no service's labels is neither deleted nor changed in its
      spec or labels by the operator, whatever its name: a snapshot made by hand, also one that is called like
      an automatic one, or that of a backup or a restore. */
  lemma {:induction false} UnlabelledNeverPruned(tools: Tools, s: System, run: seq<Label>, key: Key)
    requires Sound(s) && key.kind == Snapshot && OutOfReach(s, key)
    requires forall i :: 0 <= i < |run| ==> !Touches(run[i], key)
    ensures SameSpec(key, s.world.store, Exec(tools, s, run).world.store)
    decreases |run|
  {
    hide Do, Sound, OutOfReach;
    if run == [] {
      assert key in s.world.store by { ReachedIsStored(s, key); }
    } else {
      SoundKept(tools, s, run[0]);
      StaysOutOfReach(tools, s, run[0], key);
      UnlabelledNeverPruned(tools, Do(tools, s, run[0]), run[1..], key);
    }
  }

  lemma ReachedIsStored(s: System, key: Key)
    requires OutOfReach(s, key)
    ensures key in s.world.store
  {
  }

  // --------------------------------------------------------------- what others leave untouched

  /** Nothing about the object and its storage differs. */
  ghost predicate Untouched(w: World, w': World, key: Key) {
    && (key in w.store <==> key in w'.store)
    && (key in w.store ==> w'.store[key] == w.store[key])
    && (key in w.volumes <==> key in w'.volumes) && (key in w.volumes ==> w'.volumes[key] == w.volumes[key])
    && (key in w.images <==> key in w'.images) && (key in w.images ==> w'.images[key] == w.images[key])
  }

  /** A reconcile leaves alone what it does not own, except for the snapshots it prunes. */
  lemma StrangerStep(w: World, req: Key, pc: Pc, inp: Input, key: Key)
    requires ThreadOk(w, req, pc) && IsCustom(req.kind) && !Owns(req, key)
    requires key.kind == Snapshot && req.kind == DirectoryService ==> NotListed(pc, req, key)
    ensures Untouched(w, Perform(w, CallOf(req, pc), inp).world, key)
  {
    hide Perform, CallOf, Fresh, Adjusted, Target;
    StepEffect(w, req, pc, inp);
    if pc.Creating? || pc.Updating? {
      TargetIsOwned(req, pc.stage);
    }
  }

  /** A reconcile writes no volume and cuts no snapshot; it only drops the image of a pruned one. */
  lemma StepStorage(w: World, req: Key, pc: Pc, inp: Input)
    requires ThreadOk(w, req, pc)
    ensures var w' := Perform(w, CallOf(req, pc), inp).world;
            && w'.clock == w.clock
            && (forall key :: key in w'.volumes ==> key in w.volumes && w'.volumes[key] == w.volumes[key])
            && (forall key :: key in w'.images ==> key in w.images && w'.images[key] == w.images[key])
            && (forall key :: key in w.volumes && key.kind != Snapshot ==> key in w'.volumes)
  {
    hide Perform, CallOf, Fresh, Adjusted, Target;
    StepEffect(w, req, pc, inp);
  }

  /** Time passes forward only. */
  lemma ClockGrows(tools: Tools, s: System, l: Label)
    requires Sound(s)
    ensures Do(tools, s, l).world.clock >= s.world.clock
  {
    hide Perform, CallOf, Resume;
    if l.Step? {
      assert ThreadOk(s.world, l.req, PcOf(s, l.req));
      StepStorage(s.world, l.req, PcOf(s, l.req), l.inp);
    }
  }

  lemma TimeIsClock(w: World, d: Key, pc: Pc, inp: Input)
    requires ThreadOk(w, d, pc)
    ensures var reply := Perform(w, CallOf(d, pc), inp).reply;
            reply.Time? ==> reply.now == w.clock
  {
    hide CallOf;
  }

  /** What a call creates is what had been drafted. */
  lemma Creation(w: World, req: Key, pc: Pc, inp: Input, key: Key)
    requires ThreadOk(w, req, pc) && key !in w.store && key in Perform(w, CallOf(req, pc), inp).world.store
    ensures pc.Creating? && Target(req, pc.stage) == key
    ensures Perform(w, CallOf(req, pc), inp).world.store[key] == Stamped(pc.obj, inp.tag, w.clock)
  {
    hide Perform, CallOf, Fresh, Adjusted, Target;
    StepEffect(w, req, pc, inp);
  }

  lemma UpsertStored(w: World, req: Key, pc: Pc, inp: Input)
    requires ThreadOk(w, req, pc) && !pc.Start? && IsUpsert(pc.stage)
    ensures var a := Perform(w, CallOf(req, pc), inp);
            a.reply.Found? ==> Target(req, pc.stage) in a.world.store
  {
    hide Perform, Adjusted;
    ReplyIsStored(w, CallOf(req, pc), inp, Target(req, pc.stage));
  }

  /** The custom resource in memory has the spec of one that was stored. */
  lemma CrSpecAfter(w: World, req: Key, pc: Pc, inp: Input)
    requires ThreadOk(w, req, pc)
    ensures var a := Perform(w, CallOf(req, pc), inp);
            var next := Resume(req, pc, a.reply);
            && (req in w.store ==>
                  || req !in a.world.store || a.world.store[req].spec == w.store[req].spec
                  || req.kind == StatefulSet)
            && (req in a.world.store && IsCustom(req.kind) ==> req in w.store)
            && (next.At? || next.Creating? || next.Updating? ==>
                  || (!pc.Start? && next.cr == pc.cr)
                  || (req in a.world.store && next.cr == a.world.store[req]))
  {
    hide Perform, Resume, Fresh, Adjusted;
    var a := Perform(w, CallOf(req, pc), inp);
    CrAfter(req, pc, a.reply);
    if pc.Start? || (pc.At? && (CallOf(req, pc).ReplaceStatus? || pc.stage.UpdateCr?)) {
      ReplyIsStored(w, CallOf(req, pc), inp, req);
    }
    if req in w.store {
      StepPreserves(w, req, pc, inp, req);
    } else {
      StepEffect(w, req, pc, inp);
    }
  }

  ghost predicate ShieldedFromAll(s: System, key: Key) {
    forall d: Key :: d.kind == DirectoryService && d.namespace == key.namespace && !Owns(d, key) ==> Shielded(s, d, key)
  }

  /** Nobody gives the snapshot the labels of a service that does not own it. */
  ghost predicate LeavesForeign(l: Label, key: Key) {
    forall d: Key :: d.kind == DirectoryService && d.namespace == key.namespace && !Owns(d, key) ==>
        LeavesUnlabelled(l, d, key)
  }

  lemma ShieldsKept(tools: Tools, s: System, l: Label, key: Key)
    requires Sound(s) && ShieldedFromAll(s, key) && key.kind == Snapshot && LeavesForeign(l, key)
    ensures ShieldedFromAll(Do(tools, s, l), key)
  {
    forall d: Key | d.kind == DirectoryService && d.namespace == key.namespace && !Owns(d, key)
      ensures Shielded(Do(tools, s, l), d, key)
    {
      ShieldKept(tools, s, l, d, key);
    }
  }

  /** Presence and meaning of an object are the same. */
  ghost predicate Held(store: Store, store': Store, key: Key) {
    && (key in store <==> key in store')
    && (key in store ==> store'[key].spec == store[key].spec)
  }

  lemma OwnedNearby(b: Key, key: Key)
    requires IsCustom(b.kind) && Owns(b, key)
    ensures key.namespace == b.namespace
  {
  }

  /** Everything but its own reconcile leaves the objects of a backup or restore as they are. */
  lemma OwnedHeld(tools: Tools, s: System, l: Label, b: Key, key: Key)
    requires Sound(s) && IsCustom(b.kind) && Owns(b, key)
    requires !Touches(l, key) && (key.kind == Snapshot ==> ShieldedFromAll(s, key))
    requires l.Step? ==> IsCustom(l.req.kind) && l.req != b && NamesApart(b, l.req)
    ensures Held(s.world.store, Do(tools, s, l).world.store, key)
  {
    hide Perform, CallOf, Resume, Outside, NamesApart, Owns, Selector, Matches;
    if l.Step? {
      var pc := PcOf(s, l.req);
      assert ThreadOk(s.world, l.req, pc);
      ApartNeverMeet(b, l.req, key);
      OwnedNearby(b, key);
      if key.kind == Snapshot && l.req.kind == DirectoryService && l.req.namespace == key.namespace {
        assert Shielded(s, l.req, key);
      }
      StrangerStep(s.world, l.req, pc, l.inp, key);
    } else if !l.Crash? {
      OutsideKeeps(tools, s.world, l, key);
    }
  }
}
