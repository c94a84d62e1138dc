/** The three reconcile loops as state machines: where a reconcile stands decides its next call, and the
    reply decides where it goes on. Each transition is one call, so reconciles interleave call by call. */
module Controllers {
  import opened Text
  import opened Naming
  import opened Cluster
  import opened Listing

  const PASSWORD_CHECK_SECONDS := 300
  const LAST_CHECK := "directory.forgerock.io/last-password-check"
  const UPDATED_STATUS := "password-updated-status"
  const SNAPSHOT_GROUP := "snapshot.storage.k8s.io"

  // ------------------------------------------------------- labels and owners (controllers/util.go)

  function KindName(kind: Kind): string {
    match kind
    case DirectoryService => "DirectoryService"
    case DirectoryBackup => "DirectoryBackup"
    case DirectoryRestore => "DirectoryRestore"
    case _ => ""
  }

  function StandardLabels(instance: string, kind: Kind): Labels {
    map["app.kubernetes.io/managed-by" := "ds-operator",
        "app.kubernetes.io/name" := "ds",
        "app.kubernetes.io/instance" := instance,
        "app.kubernetes.io/controller" := KindName(kind),
        "app.kubernetes.io/part-of" := "forgerock"]
  }

  /** The labels by which a service finds its own snapshots. */
  function Selector(req: Key): Labels {
    StandardLabels(req.name, req.kind)
  }

  function Owner(req: Key, cr: Object, controller: bool): OwnerRef {
    OwnerRef(req.kind, req.name, cr.meta.uid, controller)
  }

  /** Owner references are matched by kind and name; a match is replaced. */
  function UpsertOwner(owners: seq<OwnerRef>, ref: OwnerRef): seq<OwnerRef> {
    if owners == [] then [ref]
    else if owners[0].kind == ref.kind && owners[0].name == ref.name then [ref] + owners[1..]
    else [owners[0]] + UpsertOwner(owners[1..], ref)
  }

  const GID: Labels := map["pv.beta.kubernetes.io/gid" := "0"]

  function NewMeta(labels: Labels, annotations: Labels, owners: seq<OwnerRef>): Meta {
    Meta(0, 0, 0, labels, annotations, owners)
  }

  // ------------------------------------------------------------------ where a reconcile stands

  datatype Stage =
    // controllers/directorybackup_controller.go
    | BackupLookup | BackupStatus(times: Status)
    | BackupClaim | BackupSnapshot | BackupClone | BackupJob
    // controllers/directoryrestore_controller.go
    | RestoreLookup | RestoreSnapshot(times: Status) | RestoreStatus(times: Status, finished: bool)
    | RestoreClaim(finished: bool) | RestoreJob(finished: bool)
    // controllers/directoryservice_controller.go, pvc.go, sts.go, service.go
    | ServiceClaim(ordinal: nat) | ServiceClaimList(ordinal: nat)
    | Secrets | Set | SetList | Proxy | Headless
    // controllers/snapshots.go
    | SnapClock | SnapFirst(now: nat) | SnapCreate(now: nat) | SnapStatus(now: nat)
    | SnapList | Prune(items: seq<Item>, index: nat)
    // controllers/passwords.go
    | Connect | PassClock | PassChoose(todo: set<string>, now: nat)
    | PassLookup(dn: string, todo: set<string>, now: nat)
    | PassBind(dn: string, password: string, todo: set<string>, now: nat)
    | PassSet(dn: string, password: string, todo: set<string>, now: nat)
    | UpdateCr(annotations: Labels) | FinalStatus

  /** What a reconcile may panic on. */
  datatype Cause = IndexOutOfRange | NilMap | NilConnection

  /** How a reconcile ends: the requeue delay in seconds (0 for none) and whether it reports an error. */
  datatype Outcome = Outcome(requeue: nat, error: bool) | Panicked(cause: Cause)

  /** `cr` is the in-memory custom resource, as last read. An upsert is Get, then Create or Replace. */
  datatype Pc =
    | Start
    | At(stage: Stage, cr: Object)
    | Creating(stage: Stage, cr: Object, obj: Object)
    | Updating(stage: Stage, cr: Object, seen: Object)
    | Finished(outcome: Outcome)

  function StageKind(st: Stage): Kind {
    match st
    case BackupLookup => DirectoryBackup
    case BackupStatus(_) => DirectoryBackup
    case BackupClaim => DirectoryBackup
    case BackupSnapshot => DirectoryBackup
    case BackupClone => DirectoryBackup
    case BackupJob => DirectoryBackup
    case RestoreLookup => DirectoryRestore
    case RestoreSnapshot(_) => DirectoryRestore
    case RestoreStatus(_, _) => DirectoryRestore
    case RestoreClaim(_) => DirectoryRestore
    case RestoreJob(_) => DirectoryRestore
    case _ => DirectoryService
  }

  predicate IsUpsert(st: Stage) {
    || st.BackupClaim? || st.BackupSnapshot? || st.BackupClone? || st.BackupJob?
    || st.RestoreSnapshot? || st.RestoreClaim? || st.RestoreJob?
    || st.ServiceClaim? || st.Set? || st.Headless? || st.SnapCreate?
  }

  /** The stage belongs to the controller, and the custom resource in memory is one of its own. */
  predicate Ready(kind: Kind, pc: Pc) {
    match pc
    case Start => true
    case Finished(_) => true
    case At(st, cr) => Fits(kind, st, cr)
    case Creating(st, cr, _) => Fits(kind, st, cr) && IsUpsert(st)
    case Updating(st, cr, seen) => Fits(kind, st, cr) && IsUpsert(st) && Typed(TargetKind(st), seen)
  }

  predicate Fits(kind: Kind, st: Stage, cr: Object) {
    && StageKind(st) == kind
    && Typed(kind, cr)
    && (st.Prune? ==> st.index < |st.items|)
    && (st.PassLookup? ==> st.dn in cr.spec.passwords)
    && (st.PassChoose? ==> st.todo <= cr.spec.passwords.Keys)
    && (st.PassLookup? || st.PassBind? || st.PassSet? ==> st.todo <= cr.spec.passwords.Keys)
    && (st.BackupStatus? || st.RestoreSnapshot? || st.RestoreStatus? ==> st.times.RunTimes?)
  }

  function TargetKind(st: Stage): Kind
    requires IsUpsert(st)
  {
    match st
    case BackupSnapshot => Snapshot
    case RestoreSnapshot(_) => Snapshot
    case SnapCreate(_) => Snapshot
    case BackupJob => Job
    case RestoreJob(_) => Job
    case Set => StatefulSet
    case Headless => Service
    case _ => Claim
  }

  /** The kinds that have a reconcile loop. */
  predicate IsCustom(kind: Kind) {
    kind == DirectoryService || kind == DirectoryBackup || kind == DirectoryRestore
  }

  /** The job of a backup or a restore. */
  function JobKey(req: Key): Key { Key(Job, req.namespace, req.name) }

  /** The object an upsert stage is about; for the other stages the custom resource itself. */
  function Target(req: Key, st: Stage): (key: Key)
    ensures IsUpsert(st) ==> key.kind == TargetKind(st)
  {
    match st
    case BackupClaim => Key(Claim, req.namespace, req.name)
    case BackupSnapshot => Key(Snapshot, req.namespace, Temp(req.name))
    case BackupClone => Key(Claim, req.namespace, Temp(req.name))
    case BackupJob => JobKey(req)
    case RestoreSnapshot(_) => Key(Snapshot, req.namespace, Temp(req.name))
    case RestoreClaim(_) => Key(Claim, req.namespace, Temp(req.name))
    case RestoreJob(_) => JobKey(req)
    case ServiceClaim(i) => Key(Claim, req.namespace, DataClaim(req.name, i))
    case Set => Key(StatefulSet, req.namespace, req.name)
    case Headless => Key(Service, req.namespace, req.name)
    case SnapCreate(now) => Key(Snapshot, req.namespace, AutoSnapshot(req.name, now))
    case _ => req
  }

  // ------------------------------------------------------------------- what an upsert makes

  /** The object created at an upsert stage; `claim` is the service's resolved claim spec. */
  function Fresh(req: Key, st: Stage, cr: Object, claim: ClaimSpec): Object
    requires Fits(req.kind, st, cr) && IsUpsert(st)
  {
    var labels := StandardLabels(Target(req, st).name, req.kind);
    match st
    case BackupClaim => Object(NewMeta(labels, GID, []), ClaimObject(cr.spec.pod.claim), Plain)
    case BackupSnapshot =>
      Object(NewMeta(labels, map[], [Owner(req, cr, false)]),
             SnapshotObject(cr.spec.pod.snapshotClass, cr.spec.claimToBackup), Plain)
    case BackupClone =>
      var source := DataSource("VolumeSnapshot", Temp(req.name), SNAPSHOT_GROUP);
      Object(NewMeta(labels, GID, [Owner(req, cr, false)]),
             ClaimObject(cr.spec.pod.claim.(source := Some(source))), Plain)
    case BackupJob =>
      Object(NewMeta(labels, map[], [Owner(req, cr, false)]),
             JobObject(BackupTool, Temp(req.name), req.name, cr.spec.pod.image, cr.spec.pod.rest),
             JobStatus(None, 0, 0))
    case RestoreSnapshot(_) =>
      Object(NewMeta(StandardLabels(req.name, req.kind), map[], [Owner(req, cr, false)]),
             SnapshotObject(cr.spec.pod.snapshotClass, Temp(req.name)), Plain)
    case RestoreClaim(_) =>
      Object(NewMeta(labels, GID, [Owner(req, cr, true)]), ClaimObject(cr.spec.pod.claim), Plain)
    case RestoreJob(_) =>
      Object(NewMeta(labels, map[], [Owner(req, cr, false)]),
             JobObject(RestoreTool, Temp(req.name), cr.spec.sourceClaim, cr.spec.pod.image, cr.spec.pod.rest),
             JobStatus(None, 0, 0))
    case ServiceClaim(_) => Object(NewMeta(Selector(req), GID, []), ClaimObject(claim), Plain)
    case Set =>
      Object(NewMeta(Selector(req) + cr.meta.labels, cr.meta.annotations, [Owner(req, cr, true)]),
             SetObject(cr.spec.replicas, cr.spec.pod.image, cr.spec.pod.image, req.name, "data", claim,
                       cr.spec.pod.rest),
             Plain)
    case Headless => Object(NewMeta(Selector(req), map[], [Owner(req, cr, true)]), HeadlessService(req.name), Plain)
    case SnapCreate(now) =>
      Object(NewMeta(Selector(req), map["directory.forgerock.io/lastSnapshotTime" := FormatInt(now)], []),
             SnapshotObject(cr.spec.pod.snapshotClass, DataClaim(req.name, cr.spec.schedule.instance)), Plain)
  }

  /** What an upsert makes of an object that exists already. */
  function Adjusted(req: Key, st: Stage, cr: Object, o: Object): Object
    requires Fits(req.kind, st, cr) && IsUpsert(st) && Typed(TargetKind(st), o)
  {
    match st
    case BackupSnapshot => o.(meta := o.meta.(owners := UpsertOwner(o.meta.owners, Owner(req, cr, false))))
    case BackupClone => o.(meta := o.meta.(owners := UpsertOwner(o.meta.owners, Owner(req, cr, false))))
    case Set =>
      o.(spec := o.spec.(replicas := cr.spec.replicas, dsImage := cr.spec.pod.image,
                         initImage := cr.spec.pod.image))
    case _ => o
  }

  // --------------------------------------------------------------------------- the next call

  function CallOf(req: Key, pc: Pc): Call
    requires Ready(req.kind, pc)
    requires !pc.Finished?
  {
    match pc
    case Start => Get(req)
    case Creating(st, cr, o) => Create(Target(req, st), o)
    case Updating(st, cr, seen) => Replace(Target(req, st), Adjusted(req, st, cr, seen))
    case At(st, cr) =>
      match st
      case BackupLookup => Get(JobKey(req))
      case RestoreLookup => Get(JobKey(req))
      case BackupStatus(times) => ReplaceStatus(req, cr.(status := times))
      case RestoreStatus(times, _) => ReplaceStatus(req, cr.(status := times))
      case SnapFirst(now) => ReplaceStatus(req, cr.(status := ServiceStatus(now)))
      case SnapStatus(now) => ReplaceStatus(req, cr.(status := ServiceStatus(now)))
      case FinalStatus => ReplaceStatus(req, cr)
      case UpdateCr(annotations) => Replace(req, cr.(meta := cr.meta.(annotations := annotations)))
      case ServiceClaimList(_) => List(req.namespace, Selector(req))
      case SetList => List(req.namespace, Selector(req))
      case SnapList => List(req.namespace, Selector(req))
      case Prune(items, i) => Delete(Key(Snapshot, req.namespace, items[i].name))
      case SnapClock => Now
      case PassClock => Now
      case Secrets => Attempt
      case Proxy => Attempt
      case Connect => Attempt
      case PassChoose(todo, _) => Choose(todo)
      case PassLookup(dn, _, _) => Get(Key(Secret, req.namespace, cr.spec.passwords[dn].secretName))
      case PassBind(dn, password, _, _) => Bind(Account(req.namespace, req.name, dn), password)
      case PassSet(dn, password, _, _) => SetPassword(Account(req.namespace, req.name, dn), password)
      case _ => Get(Target(req, st))
  }

  // ----------------------------------------------------------------------- after the reply

  /** Two's complement reduction to 32 bits. */
  function Int32(n: int): int {
    (n + 0x8000_0000) % 0x1_0000_0000 - 0x8000_0000
  }

  function Deadline(cr: Object): int
    requires Typed(DirectoryService, cr)
  {
    cr.status.lastSnapshot + Int32(cr.spec.schedule.periodMinutes * 60)
  }

  function NextClaim(cr: Object, i: nat): (pc: Pc)
    requires Typed(DirectoryService, cr)
    ensures Ready(DirectoryService, pc)
  {
    if i < cr.spec.replicas then At(ServiceClaim(i), cr) else At(Secrets, cr)
  }

  /** The head of the prune loop; an index past the listing is a run-time panic. */
  function NextPrune(cr: Object, items: seq<Item>, i: nat): (pc: Pc)
    requires Typed(DirectoryService, cr)
    ensures Ready(DirectoryService, pc)
  {
    if i >= |items| - cr.spec.schedule.retained then At(Connect, cr)
    else if i < |items| then At(Prune(items, i), cr)
    else Finished(Panicked(IndexOutOfRange))
  }

  predicate Internal(dn: string) {
    dn == "uid=admin" || dn == "uid=monitor"
  }

  /** The head of the password loop; at its end the annotations are written, which panics on a nil map. */
  function NextAccount(cr: Object, todo: set<string>, now: nat): (pc: Pc)
    requires Typed(DirectoryService, cr) && todo <= cr.spec.passwords.Keys
    ensures Ready(DirectoryService, pc)
  {
    if todo != {} then At(PassChoose(todo, now), cr)
    else if cr.meta.annotations == map[] then Finished(Panicked(NilMap))
    else At(UpdateCr(cr.meta.annotations[UPDATED_STATUS := "updated"][LAST_CHECK := FormatInt(now)]), cr)
  }

  function LastCheck(annotations: Labels): Option<int> {
    if LAST_CHECK !in annotations || annotations[LAST_CHECK] == "" then None
    else
      var t := ParseInt(annotations[LAST_CHECK]);
      Some(if t.None? then 0 else t.value)
  }

  predicate TooSoon(annotations: Labels, now: nat) {
    var last := LastCheck(annotations);
    last.Some? && now - last.value < PASSWORD_CHECK_SECONDS
  }

  /** Where a reconcile goes when the work of an upsert stage is done. */
  function Proceed(st: Stage, cr: Object): (pc: Pc)
    requires IsUpsert(st) && Fits(StageKind(st), st, cr)
    ensures Ready(StageKind(st), pc)
  {
    match st
    case BackupClaim => At(BackupSnapshot, cr)
    case BackupSnapshot => At(BackupClone, cr)
    case BackupClone => At(BackupJob, cr)
    case BackupJob => Finished(Outcome(0, false))
    case RestoreSnapshot(times) => At(RestoreStatus(times, true), cr)
    case RestoreClaim(finished) => At(RestoreJob(finished), cr)
    case RestoreJob(finished) => Finished(Outcome(if finished then 0 else 60, false))
    case ServiceClaim(i) => NextClaim(cr, i + 1)
    case Set => At(Proxy, cr)
    case Headless => if cr.spec.schedule.enabled then At(SnapClock, cr) else At(Connect, cr)
    case SnapCreate(now) => At(SnapStatus(now), cr)
  }

  /** Where it goes when that work fails: two snapshot stages carry on, the others give up. */
  function GiveUp(st: Stage, cr: Object): (pc: Pc)
    requires IsUpsert(st) && Fits(StageKind(st), st, cr)
    ensures Ready(StageKind(st), pc)
  {
    match st
    case RestoreSnapshot(_) => Proceed(st, cr)
    case SnapCreate(_) => Proceed(st, cr)
    case _ => Finished(Outcome(if StageKind(st) == DirectoryService then 60 else 0, true))
  }

  function Begin(req: Key, cr: Object): (pc: Pc)
    requires Typed(req.kind, cr)
    ensures Ready(req.kind, pc)
  {
    match req.kind
    case DirectoryBackup => At(BackupLookup, cr)
    case DirectoryRestore => At(RestoreLookup, cr)
    case DirectoryService => NextClaim(cr, 0)
    case _ => Finished(Outcome(0, false))
  }

  function Looked(req: Key, st: Stage, cr: Object, reply: Reply): (pc: Pc)
    requires Fits(req.kind, st, cr) && (st.BackupLookup? || st.RestoreLookup?)
    ensures Ready(req.kind, pc)
  {
    if reply.Missing? then
      if st.BackupLookup? then At(BackupStatus(cr.status), cr) else At(RestoreStatus(cr.status, false), cr)
    else if !reply.Found? || !Typed(Job, reply.obj) then Finished(Outcome(0, true))
    else
      var job := reply.obj;
      var ended := job.status.completed.Some?;
      var times := RunTimes(Some(job.meta.created),
                            if ended then job.status.completed else cr.status.completion);
      if st.BackupLookup? then At(BackupStatus(times), cr)
      else if ended && job.status.failed > 0 then Finished(Outcome(0, true))
      else if ended && job.status.succeeded > 0 then At(RestoreSnapshot(times), cr)
      else At(RestoreStatus(times, ended), cr)
  }

  function Upserted(req: Key, st: Stage, cr: Object, reply: Reply): (pc: Pc)
    requires Fits(req.kind, st, cr) && IsUpsert(st)
    ensures Ready(req.kind, pc)
  {
    if reply.Missing? then
      if st.ServiceClaim? && WantsLatest(cr.spec.pod.claim) then At(ServiceClaimList(st.ordinal), cr)
      else if st.Set? && WantsLatest(cr.spec.pod.claim) then At(SetList, cr)
      else Creating(st, cr, Fresh(req, st, cr, cr.spec.pod.claim))
    else if !reply.Found? || !Typed(TargetKind(st), reply.obj) then GiveUp(st, cr)
    else if Adjusted(req, st, cr, reply.obj) == reply.obj then Proceed(st, cr)
    else Updating(st, cr, reply.obj)
  }

  function Resume(req: Key, pc: Pc, reply: Reply): (next: Pc)
    requires Ready(req.kind, pc)
    requires !pc.Finished?
    ensures Ready(req.kind, next)
  {
    match pc
    case Start =>
      if reply.Found? && Typed(req.kind, reply.obj) then Begin(req, reply.obj)
      else Finished(Outcome(0, !reply.Missing?))
    case Creating(st, cr, _) => if reply.Found? then Proceed(st, cr) else GiveUp(st, cr)
    case Updating(st, cr, _) => if reply.Found? then Proceed(st, cr) else GiveUp(st, cr)
    case At(st, cr) =>
      if IsUpsert(st) then Upserted(req, st, cr, reply)
      else if st.BackupLookup? || st.RestoreLookup? then Looked(req, st, cr, reply)
      else Continued(req, st, cr, reply)
  }

  predicate InSnapshots(st: Stage) {
    st.SnapClock? || st.SnapFirst? || st.SnapStatus? || st.SnapList? || st.Prune?
  }

  predicate InPasswords(st: Stage) {
    || st.Connect? || st.PassClock? || st.PassChoose? || st.PassLookup? || st.PassBind? || st.PassSet?
    || st.UpdateCr? || st.FinalStatus?
  }

  function Continued(req: Key, st: Stage, cr: Object, reply: Reply): (pc: Pc)
    requires Fits(req.kind, st, cr) && !IsUpsert(st) && !st.BackupLookup? && !st.RestoreLookup?
    ensures Ready(req.kind, pc)
  {
    if InSnapshots(st) then Scheduled(st, cr, reply)
    else if InPasswords(st) then Synchronised(st, cr, reply)
    else
      var saved := reply.Found? && Typed(req.kind, reply.obj);
      var listed := if reply.Listed? then Some(reply.items) else None;
      match st
      case BackupStatus(_) => if saved then At(BackupClaim, reply.obj) else Finished(Outcome(0, true))
      case RestoreStatus(_, finished) =>
        if saved then At(RestoreClaim(finished), reply.obj) else Finished(Outcome(0, true))
      case ServiceClaimList(i) =>
        Creating(ServiceClaim(i), cr, Fresh(req, ServiceClaim(i), cr, Resolve(cr.spec.pod.claim, listed)))
      case SetList => Creating(Set, cr, Fresh(req, Set, cr, Resolve(cr.spec.pod.claim, listed)))
      case Secrets => if reply.Done? then At(Set, cr) else Finished(Outcome(60, true))
      case Proxy => if reply.Done? then At(Headless, cr) else Finished(Outcome(60, true))
  }

  /** The snapshot part of a reconcile (controllers/snapshots.go). */
  function Scheduled(st: Stage, cr: Object, reply: Reply): (pc: Pc)
    requires Fits(DirectoryService, st, cr) && InSnapshots(st)
    ensures Ready(DirectoryService, pc)
    ensures pc.Finished? || (pc.At? && (InSnapshots(pc.stage) || pc.stage.SnapCreate? || pc.stage.Connect?))
  {
    var saved := reply.Found? && Typed(DirectoryService, reply.obj);
    match st
    case SnapClock =>
      if !reply.Time? then Finished(Outcome(60, true))
      else if cr.status.lastSnapshot == 0 then At(SnapFirst(reply.now), cr)
      else if reply.now < Deadline(cr) then At(Connect, cr)
      else At(SnapCreate(reply.now), cr)
    case SnapFirst(_) => if saved then At(Connect, reply.obj) else Finished(Outcome(60, true))
    case SnapStatus(_) => if saved then At(SnapList, reply.obj) else Finished(Outcome(60, true))
    case SnapList =>
      if reply.Listed? then NextPrune(cr, SortByCreation(reply.items), 0) else Finished(Outcome(60, true))
    case Prune(items, i) => NextPrune(cr, items, i + 1)
  }

  /** The password part and the end of a reconcile (controllers/passwords.go). */
  function Synchronised(st: Stage, cr: Object, reply: Reply): (pc: Pc)
    requires Fits(DirectoryService, st, cr) && InPasswords(st)
    ensures Ready(DirectoryService, pc)
    ensures pc.Finished? || (pc.At? && InPasswords(pc.stage))
  {
    var saved := reply.Found? && Typed(DirectoryService, reply.obj);
    match st
    case Connect => if reply.Done? then At(PassClock, cr) else Finished(Outcome(90, false))
    case PassClock =>
      if !reply.Time? then Finished(Outcome(60, false))
      else if TooSoon(cr.meta.annotations, reply.now) then At(UpdateCr(cr.meta.annotations), cr)
      else NextAccount(cr, cr.spec.passwords.Keys, reply.now)
    case PassChoose(todo, now) =>
      if !reply.Chosen? || reply.dn !in todo then Finished(Outcome(60, false))
      else if Internal(reply.dn) then NextAccount(cr, todo - {reply.dn}, now)
      else At(PassLookup(reply.dn, todo - {reply.dn}, now), cr)
    case PassLookup(dn, todo, now) =>
      if !reply.Found? || !Typed(Secret, reply.obj) then Finished(Outcome(60, false))
      else
        var data, key := reply.obj.spec.data, cr.spec.passwords[dn].key;
        At(PassBind(dn, if key in data then data[key] else "", todo, now), cr)
    case PassBind(dn, password, todo, now) =>
      // Without a connection there is none to close, which panics.
      if reply.Unreachable? then Finished(Panicked(NilConnection))
      else if reply.Done? then NextAccount(cr, todo, now)
      else At(PassSet(dn, password, todo, now), cr)
    case PassSet(dn, password, todo, now) =>
      if reply.Done? then NextAccount(cr, todo, now) else Finished(Outcome(60, false))
    case UpdateCr(_) => if saved then At(FinalStatus, reply.obj) else Finished(Outcome(0, true))
    case FinalStatus => Finished(if saved then Outcome(60, false) else Outcome(0, true))
  }

  /** The calls of an upsert stage, and where they lead. */
  lemma UpsertTurn(req: Key, st: Stage, cr: Object)
    requires Fits(req.kind, st, cr) && IsUpsert(st)
    ensures CallOf(req, At(st, cr)) == Get(Target(req, st))
    ensures forall reply :: Resume(req, At(st, cr), reply) == Upserted(req, st, cr, reply)
    ensures forall o :: CallOf(req, Creating(st, cr, o)) == Create(Target(req, st), o)
    ensures forall o, reply ::
              Resume(req, Creating(st, cr, o), reply) == if reply.Found? then Proceed(st, cr) else GiveUp(st, cr)
    ensures forall o :: Typed(TargetKind(st), o) ==>
              CallOf(req, Updating(st, cr, o)) == Replace(Target(req, st), Adjusted(req, st, cr, o))
    ensures forall o, reply :: Typed(TargetKind(st), o) ==>
              Resume(req, Updating(st, cr, o), reply) == if reply.Found? then Proceed(st, cr) else GiveUp(st, cr)
  {
    hide Fresh, Adjusted, Upserted, Proceed, GiveUp;
  }
}
