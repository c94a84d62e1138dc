/** What one undisturbed reconcile of a backup or a restore brings about, from its first call to its last, said in
    the terms of the custom resource alone. */
module Outcomes {
  import opened Text
  import opened Cluster
  import opened Controllers
  import opened Pruning
  import opened Convergence

  // ----------------------------------------------------------------------------- objects, old and new

  function OperatorLabels(instance: string, controller: string): Labels {
    map["app.kubernetes.io/managed-by" := "ds-operator",
        "app.kubernetes.io/name" := "ds",
        "app.kubernetes.io/instance" := instance,
        "app.kubernetes.io/controller" := controller,
        "app.kubernetes.io/part-of" := "forgerock"]
  }

  const VOLUME_GID: Labels := map["pv.beta.kubernetes.io/gid" := "0"]

  /** The object was not there and has been created like this. */
  ghost predicate IsNew(w: World, w': World, key: Key, spec: Spec, labels: Labels, annotations: Labels,
                        owners: seq<OwnerRef>, status: Status) {
    key !in w.store ==>
      && key in w'.store
      && w'.store[key].spec == spec && w'.store[key].status == status
      && w'.store[key].meta.labels == labels && w'.store[key].meta.annotations == annotations
      && w'.store[key].meta.owners == owners && w'.store[key].meta.created == w.clock
  }

  /** The object was there and is there as it was. */
  ghost predicate IsOld(w: World, w': World, key: Key) {
    key in w.store ==> key in w'.store && w'.store[key] == w.store[key]
  }

  /** The same, except that the custom resource is now among its owners. */
  ghost predicate IsAdopted(w: World, w': World, key: Key, owner: OwnerRef) {
    key in w.store ==>
      && key in w'.store
      && w'.store[key].spec == w.store[key].spec && w'.store[key].status == w.store[key].status
      && w'.store[key].meta.uid == w.store[key].meta.uid && w'.store[key].meta.created == w.store[key].meta.created
      && w'.store[key].meta.labels == w.store[key].meta.labels
      && w'.store[key].meta.annotations == w.store[key].meta.annotations
      && owner in w'.store[key].meta.owners
      && forall o: OwnerRef :: !(o.kind == owner.kind && o.name == owner.name) ==>
           (o in w'.store[key].meta.owners <==> o in w.store[key].meta.owners)
  }

  /** Nothing else has changed. */
  ghost predicate OnlyThese(w: World, w': World, keys: set<Key>) {
    && w' == w.(store := w'.store, tags := w'.tags)
    && forall k :: k !in keys ==> (k in w'.store <==> k in w.store) && (k in w.store ==> w'.store[k] == w.store[k])
  }

  lemma {:induction false} UpsertOwnerAdds(owners: seq<OwnerRef>, ref: OwnerRef)
    ensures ref in UpsertOwner(owners, ref)
    ensures forall o: OwnerRef :: !(o.kind == ref.kind && o.name == ref.name) ==>
              (o in UpsertOwner(owners, ref) <==> o in owners)
  {
    if owners == [] {
    } else if owners[0].kind == ref.kind && owners[0].name == ref.name {
      assert owners == [owners[0]] + owners[1..];
    } else {
      assert owners == [owners[0]] + owners[1..];
      UpsertOwnerAdds(owners[1..], ref);
    }
  }

  // ------------------------------------------------------------------------------------ backups

  function ClaimNamed(req: Key, name: string): Key { Key(Claim, req.namespace, name) }
  function SnapshotNamed(req: Key, name: string): Key { Key(Snapshot, req.namespace, name) }
  function JobNamed(req: Key, name: string): Key { Key(Job, req.namespace, name) }

  function BackupOwner(b: Key, cr: Object): OwnerRef { OwnerRef(DirectoryBackup, b.name, cr.meta.uid, false) }

  /** An upsert makes what it drafts, and keeps what it would not adjust. */
  lemma MadeIsNew(w: World, w': World, req: Key, st: Stage, cr: Object)
    requires Fits(req.kind, st, cr) && Simple(st) && Made(w, w', req, st, cr)
    ensures var o := Fresh(req, st, cr, cr.spec.pod.claim);
            IsNew(w, w', Target(req, st), o.spec, o.meta.labels, o.meta.annotations, o.meta.owners, o.status)
  {
    hide Fresh, Adjusted, Target;
  }

  lemma MadeIsOld(w: World, w': World, req: Key, st: Stage, cr: Object)
    requires Fits(req.kind, st, cr) && Simple(st) && WellTyped(w) && Made(w, w', req, st, cr)
    requires !st.BackupSnapshot? && !st.BackupClone?
    ensures IsOld(w, w', Target(req, st))
  {
    hide Fresh, WellTyped;
    if Target(req, st) in w.store {
      StoredTyped(w, Target(req, st));
    }
  }

  lemma MadeIsAdopted(w: World, w': World, b: Key, st: Stage, cr: Object)
    requires b.kind == DirectoryBackup && Fits(b.kind, st, cr) && WellTyped(w)
    requires st.BackupSnapshot? || st.BackupClone?
    requires Made(w, w', b, st, cr)
    ensures IsAdopted(w, w', Target(b, st), BackupOwner(b, cr))
  {
    hide Fresh, WellTyped;
    if Target(b, st) in w.store {
      StoredTyped(w, Target(b, st));
      UpsertOwnerAdds(w.store[Target(b, st)].meta.owners, BackupOwner(b, cr));
      hide UpsertOwner;
      assert Adjusted(b, st, cr, w.store[Target(b, st)]).meta.owners
             == UpsertOwner(w.store[Target(b, st)].meta.owners, BackupOwner(b, cr));
    }
  }

  lemma StoredTyped(w: World, key: Key)
    requires WellTyped(w) && key in w.store
    ensures Typed(key.kind, w.store[key])
  {
  }

  /** What a reconcile of a backup makes of its four objects. */
  ghost predicate BackupObjects(w: World, w': World, b: Key, cr: Object)
    requires Typed(DirectoryBackup, cr)
  {
    var temp, labels, owner := "temp-" + b.name, OperatorLabels("temp-" + b.name, "DirectoryBackup"),
        BackupOwner(b, cr);
    var own, pod := OperatorLabels(b.name, "DirectoryBackup"), cr.spec.pod;
    && IsNew(w, w', ClaimNamed(b, b.name), ClaimObject(pod.claim), own, VOLUME_GID, [], Plain)
    && IsOld(w, w', ClaimNamed(b, b.name))
    && IsNew(w, w', SnapshotNamed(b, temp), SnapshotObject(pod.snapshotClass, cr.spec.claimToBackup), labels, map[],
          [owner], Plain)
    && IsAdopted(w, w', SnapshotNamed(b, temp), owner)
    && IsNew(w, w', ClaimNamed(b, temp),
             ClaimObject(ClaimSpec(pod.claim.shape,
                 Some(DataSource("VolumeSnapshot", temp, "snapshot.storage.k8s.io")))),
             labels, VOLUME_GID, [owner], Plain)
    && IsAdopted(w, w', ClaimNamed(b, temp), owner)
    && IsNew(w, w', JobNamed(b, b.name), JobObject(BackupTool, temp, b.name, pod.image, pod.rest), own, map[], [owner],
             JobStatus(None, 0, 0))
    && IsOld(w, w', JobNamed(b, b.name))
    && OnlyThese(w, w', {b, ClaimNamed(b, b.name), SnapshotNamed(b, temp), ClaimNamed(b, temp), JobNamed(b, b.name)})
  }

  lemma BackupClaimMade(w: World, w': World, b: Key, cr: Object)
    requires b.kind == DirectoryBackup && Typed(b.kind, cr) && WellTyped(w) && Made(w, w', b, BackupClaim, cr)
    ensures var key, labels := ClaimNamed(b, b.name), OperatorLabels(b.name, "DirectoryBackup");
            IsNew(w, w', key, ClaimObject(cr.spec.pod.claim), labels, VOLUME_GID, [], Plain) && IsOld(w, w', key)
  {
    MadeIsNew(w, w', b, BackupClaim, cr);
    MadeIsOld(w, w', b, BackupClaim, cr);
    hide Made, IsNew;
  }

  lemma BackupSnapshotMade(w: World, w': World, b: Key, cr: Object)
    requires b.kind == DirectoryBackup && Typed(b.kind, cr) && WellTyped(w) && Made(w, w', b, BackupSnapshot, cr)
    ensures var key, labels := SnapshotNamed(b, "temp-" + b.name), OperatorLabels("temp-" + b.name, "DirectoryBackup");
            && IsNew(w, w', key, SnapshotObject(cr.spec.pod.snapshotClass, cr.spec.claimToBackup), labels, map[],
                     [BackupOwner(b, cr)], Plain)
            && IsAdopted(w, w', key, BackupOwner(b, cr))
  {
    MadeIsNew(w, w', b, BackupSnapshot, cr);
    MadeIsAdopted(w, w', b, BackupSnapshot, cr);
    hide Made, IsNew, IsAdopted;
  }

  lemma BackupCloneMade(w: World, w': World, b: Key, cr: Object)
    requires b.kind == DirectoryBackup && Typed(b.kind, cr) && WellTyped(w) && Made(w, w', b, BackupClone, cr)
    ensures var temp := "temp-" + b.name;
            var source := DataSource("VolumeSnapshot", temp, "snapshot.storage.k8s.io");
            && IsNew(w, w', ClaimNamed(b, temp), ClaimObject(ClaimSpec(cr.spec.pod.claim.shape, Some(source))),
                     OperatorLabels(temp, "DirectoryBackup"), VOLUME_GID, [BackupOwner(b, cr)], Plain)
            && IsAdopted(w, w', ClaimNamed(b, temp), BackupOwner(b, cr))
  {
    MadeIsNew(w, w', b, BackupClone, cr);
    MadeIsAdopted(w, w', b, BackupClone, cr);
    hide Made, IsNew, IsAdopted;
  }

  lemma BackupJobMade(w: World, w': World, b: Key, cr: Object)
    requires b.kind == DirectoryBackup && Typed(b.kind, cr) && WellTyped(w) && Made(w, w', b, BackupJob, cr)
    ensures var key := JobNamed(b, b.name);
            && IsNew(w, w', key, JobObject(BackupTool, "temp-" + b.name, b.name, cr.spec.pod.image, cr.spec.pod.rest),
                     OperatorLabels(b.name, "DirectoryBackup"), map[], [BackupOwner(b, cr)], JobStatus(None, 0, 0))
            && IsOld(w, w', key)
  {
    MadeIsNew(w, w', b, BackupJob, cr);
    MadeIsOld(w, w', b, BackupJob, cr);
    hide Made, IsNew;
  }

  lemma BackupObjectsMade(w: World, w': World, b: Key, cr: Object)
    requires b.kind == DirectoryBackup && Typed(b.kind, cr) && WellTyped(w) && BackupMade(w, w', b, cr)
    ensures BackupObjects(w, w', b, cr)
  {
    hide Made, IsNew, IsOld, IsAdopted, WellTyped;
    BackupClaimMade(w, w', b, cr);
    BackupSnapshotMade(w, w', b, cr);
    BackupCloneMade(w, w', b, cr);
    BackupJobMade(w, w', b, cr);
  }

  /** The times of a job as they are to be reported; those known already if there is no job. */
  ghost predicate Reports(w: World, req: Key, was: Status, status: Status) {
    var key := JobNamed(req, req.name);
    if key !in w.store then status == was
    else
      && status.RunTimes? && status.start == Some(w.store[key].meta.created)
      && w.store[key].status.JobStatus? && was.RunTimes?
      && status.completion == (if w.store[key].status.completed.Some? then w.store[key].status.completed
            else was.completion)
  }

  /** One undisturbed reconcile of a backup whose calls succeed: the custom resource reports the times of its job;
      whichever of the four objects was missing is there as the custom resource describes it; snapshot and clone
      are owned by the backup; and everything else is as it was. */
  lemma BackupOutcome(w: World, b: Key, inputs: seq<Input>) returns (w': World)
    requires b.kind == DirectoryBackup && WellTyped(w) && b in w.store && Good(w, inputs) && |inputs| >= 11
    ensures Drive(w, b, Start, inputs) == Stop(Finished(Outcome(0, false)), w')
    ensures Typed(DirectoryBackup, w.store[b]) && BackupObjects(w, w', b, w.store[b])
    ensures b in w'.store && w'.store[b].spec == w.store[b].spec && Reports(w, b, w.store[b].status, w'.store[b].status)
  {
    StoredTyped(w, b);
    hide Drive, Good, WellTyped, BackupMade, BackupObjects, BackupFixed, Times, Reports;
    w' := BackupReconcile(w, b, inputs);
    BackupObjectsMade(w, w', b, w.store[b]);
    TimesReport(w, b);
  }

  lemma TimesReport(w: World, req: Key)
    requires WellTyped(w) && req in w.store && w.store[req].status.RunTimes?
    ensures Reports(w, req, w.store[req].status, Times(w, req))
  {
    hide WellTyped;
    if JobKey(req) in w.store {
      StoredTyped(w, JobKey(req));
    }
  }

  // ------------------------------------------------------------------------------------ restores

  function RestoreOwner(r: Key, cr: Object, controller: bool): OwnerRef {
    OwnerRef(DirectoryRestore, r.name, cr.meta.uid, controller)
  }

  /** What a reconcile of a restore makes of its claim and its job. */
  ghost predicate RestoreObjects(w: World, w': World, r: Key, cr: Object)
    requires Typed(DirectoryRestore, cr)
  {
    var temp, pod := "temp-" + r.name, cr.spec.pod;
    && IsNew(w, w', ClaimNamed(r, temp), ClaimObject(pod.claim), OperatorLabels(temp, "DirectoryRestore"), VOLUME_GID,
             [RestoreOwner(r, cr, true)], Plain)
    && IsOld(w, w', ClaimNamed(r, temp))
    && IsNew(w, w', JobNamed(r, r.name), JobObject(RestoreTool, temp, cr.spec.sourceClaim, pod.image, pod.rest),
             OperatorLabels(r.name, "DirectoryRestore"), map[], [RestoreOwner(r, cr, false)], JobStatus(None, 0, 0))
    && IsOld(w, w', JobNamed(r, r.name))
  }

  /** And of its snapshot, once the job has succeeded. */
  ghost predicate RestoreImage(w: World, w': World, r: Key, cr: Object)
    requires Typed(DirectoryRestore, cr)
  {
    var temp := "temp-" + r.name;
    && IsNew(w, w', SnapshotNamed(r, temp), SnapshotObject(cr.spec.pod.snapshotClass, temp),
             OperatorLabels(r.name, "DirectoryRestore"), map[], [RestoreOwner(r, cr, false)], Plain)
    && IsOld(w, w', SnapshotNamed(r, temp))
  }

  lemma RestoreClaimMade(w: World, w': World, r: Key, cr: Object, ended: bool)
    requires r.kind == DirectoryRestore && Typed(r.kind, cr) && WellTyped(w) && Made(w, w', r, RestoreClaim(ended), cr)
    ensures var key := ClaimNamed(r, "temp-" + r.name);
            && IsNew(w, w', key, ClaimObject(cr.spec.pod.claim), OperatorLabels("temp-" + r.name, "DirectoryRestore"),
                     VOLUME_GID, [RestoreOwner(r, cr, true)], Plain)
            && IsOld(w, w', key)
  {
    MadeIsNew(w, w', r, RestoreClaim(ended), cr);
    MadeIsOld(w, w', r, RestoreClaim(ended), cr);
    hide Made, IsNew;
  }

  lemma RestoreJobMade(w: World, w': World, r: Key, cr: Object, ended: bool)
    requires r.kind == DirectoryRestore && Typed(r.kind, cr) && WellTyped(w) && Made(w, w', r, RestoreJob(ended), cr)
    ensures var key, spec := JobNamed(r, r.name), cr.spec;
            && IsNew(w, w', key, JobObject(RestoreTool, "temp-" + r.name, spec.sourceClaim, spec.pod.image,
                  spec.pod.rest),
                     OperatorLabels(r.name, "DirectoryRestore"), map[], [RestoreOwner(r, cr, false)],
                     JobStatus(None, 0, 0))
            && IsOld(w, w', key)
  {
    MadeIsNew(w, w', r, RestoreJob(ended), cr);
    MadeIsOld(w, w', r, RestoreJob(ended), cr);
    hide Made, IsNew;
  }

  lemma RestoreSnapshotMade(w: World, w': World, r: Key, cr: Object, times: Status)
    requires r.kind == DirectoryRestore && Typed(r.kind, cr) && times.RunTimes? && WellTyped(w)
    requires Made(w, w', r, RestoreSnapshot(times), cr)
    ensures RestoreImage(w, w', r, cr)
  {
    MadeIsNew(w, w', r, RestoreSnapshot(times), cr);
    MadeIsOld(w, w', r, RestoreSnapshot(times), cr);
    hide Made, IsNew;
  }

  lemma PairIsMade(w: World, w': World, r: Key, cr: Object, ended: bool)
    requires r.kind == DirectoryRestore && Typed(r.kind, cr) && WellTyped(w) && PairMade(w, w', r, cr, ended)
    ensures RestoreObjects(w, w', r, cr)
    ensures OnlyThese(w, w', {r, ClaimNamed(r, "temp-" + r.name), JobNamed(r, r.name)})
  {
    hide Made, IsNew, IsOld, WellTyped;
    RestoreClaimMade(w, w', r, cr, ended);
    RestoreJobMade(w, w', r, cr, ended);
  }

  lemma TripleIsMade(w: World, w': World, r: Key, cr: Object, ended: bool, times: Status)
    requires r.kind == DirectoryRestore && Typed(r.kind, cr) && WellTyped(w) && times.RunTimes?
    requires TripleMade(w, w', r, cr, ended, times)
    ensures RestoreObjects(w, w', r, cr) && RestoreImage(w, w', r, cr)
    ensures var temp := "temp-" + r.name;
            OnlyThese(w, w', {r, ClaimNamed(r, temp), JobNamed(r, r.name), SnapshotNamed(r, temp)})
  {
    hide Made, IsNew, IsOld, WellTyped;
    RestoreClaimMade(w, w', r, cr, ended);
    RestoreJobMade(w, w', r, cr, ended);
    RestoreSnapshotMade(w, w', r, cr, times);
  }

  /** Whether the restore's job has completed, and with at least one success. */
  predicate HasEnded(w: World, r: Key) {
    var key := JobNamed(r, r.name);
    key in w.store && w.store[key].status.JobStatus? && w.store[key].status.completed.Some?
  }

  predicate HasFailed(w: World, r: Key) {
    HasEnded(w, r) && w.store[JobNamed(r, r.name)].status.failed > 0
  }

  predicate HasSucceeded(w: World, r: Key) {
    HasEnded(w, r) && w.store[JobNamed(r, r.name)].status.succeeded > 0
  }

  /** One undisturbed reconcile of a restore whose calls succeed. If its job has failed, it changes nothing and
      reports an error. Otherwise the custom resource reports the times of the job; the claim and the job that
      were missing are there as the custom resource describes them, and after a success of the job the snapshot of
      that claim, too, all owned by the restore; everything else is as it was; and the reconcile asks to come back
      in a minute exactly as long as the job has not completed. */
  lemma RestoreOutcome(w: World, r: Key, inputs: seq<Input>) returns (w': World)
    requires r.kind == DirectoryRestore && WellTyped(w) && r in w.store && Good(w, inputs) && |inputs| >= 9
    ensures Typed(DirectoryRestore, w.store[r])
    ensures HasFailed(w, r) ==> Drive(w, r, Start, inputs) == Stop(Finished(Outcome(0, true)), w)
    ensures !HasFailed(w, r) ==>
              && Drive(w, r, Start, inputs) == Stop(Finished(Outcome(if HasEnded(w, r) then 0 else 60, false)), w')
              && r in w'.store && w'.store[r].spec == w.store[r].spec
              && Reports(w, r, w.store[r].status, w'.store[r].status)
              && RestoreObjects(w, w', r, w.store[r])
              && var claim, job := ClaimNamed(r, "temp-" + r.name), JobNamed(r, r.name);
                 if HasSucceeded(w, r)
                 then RestoreImage(w, w', r, w.store[r])
                      && OnlyThese(w, w', {r, claim, job, SnapshotNamed(r, "temp-" + r.name)})
                 else OnlyThese(w, w', {r, claim, job})
  {
    StoredTyped(w, r);
    SameJob(w, r);
    hide Drive, Good, WellTyped, PairMade, TripleMade, RestoreFixedFor, Times, Reports, RestoreObjects, RestoreImage,
      OnlyThese, JobEnded, JobFailed, JobSucceeded, HasEnded, HasFailed, HasSucceeded, JobKept;
    if JobFailed(w, r) {
      w' := w;
      FailedStops(w, r, inputs);
    } else {
      w' := RestoreReconcile(w, r, inputs);
      TimesReport(w, r);
      if JobSucceeded(w, r) {
        TripleIsMade(w, w', r, w.store[r], JobEnded(w, r), Times(w, r));
      } else {
        PairIsMade(w, w', r, w.store[r], JobEnded(w, r));
      }
    }
  }

  lemma SameJob(w: World, r: Key)
    requires WellTyped(w)
    ensures JobEnded(w, r) == HasEnded(w, r) && JobFailed(w, r) == HasFailed(w, r)
    ensures JobSucceeded(w, r) == HasSucceeded(w, r)
  {
    hide WellTyped;
    if JobKey(r) in w.store {
      StoredTyped(w, JobKey(r));
    }
  }
}
