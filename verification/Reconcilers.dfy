/** The reconcilers as the operator runs them, step by step against an API server that may fail or change
    under their hands at any call. Each is shown to follow its state machine call by call. */
module Reconcilers {
  import opened Text
  import opened Cluster
  import opened Listing
  import opened Controllers

  /** One call as it happened: the world it met, what the cluster decided, the answer. */
  datatype Event = Event(before: World, inp: Input, call: Call, reply: Reply, after: World)

  ghost predicate Lawful(e: Event) {
    Perform(e.before, e.call, e.inp) == Answer(e.after, e.reply)
  }

  /** Where the state machine of `req` stands after the events; None if it would not have made these calls. */
  ghost function Reached(req: Key, events: seq<Event>): (r: Option<Pc>)
    ensures r.Some? ==> Ready(req.kind, r.value)
    decreases |events|
  {
    if events == [] then Some(Start)
    else
      var p, e := Reached(req, events[..|events| - 1]), events[|events| - 1];
      if p.Some? && !p.value.Finished? && Lawful(e) && e.call == CallOf(req, p.value)
      then Some(Resume(req, p.value, e.reply)) else None
  }

  lemma ClockAnswers(w: World, call: Call, inp: Input)
    ensures call.Now? ==> Perform(w, call, inp).reply.Time?
  {
  }

  class ApiServer {
    var world: World
    ghost var trace: seq<Event>

    constructor (w: World)
      ensures world == w && trace == []
    {
      world, trace := w, [];
    }

    /** The machine of `req` has made the calls since `mark` and stands at `pc`. */
    ghost predicate Stands(req: Key, mark: nat, pc: Pc)
      reads this
    {
      mark <= |trace| && Reached(req, trace[mark..]) == Some(pc)
    }

    lemma Advance(req: Key, mark: nat, pc: Pc, e: Event, grown: seq<Event>)
      requires mark <= |trace| && Reached(req, trace[mark..]) == Some(pc) && !pc.Finished?
      requires grown == trace + [e] && Lawful(e) && e.call == CallOf(req, pc)
      ensures Reached(req, grown[mark..]) == Some(Resume(req, pc, e.reply))
    {
      var events := grown[mark..];
      assert events == trace[mark..] + [e];
      assert events[..|events| - 1] == trace[mark..];
    }

    /** Make a call. Beforehand anything may have happened to the cluster, and the call may fail. */
    method Ask(call: Call, ghost req: Key, ghost mark: nat, ghost pc: Pc) returns (reply: Reply)
      requires Stands(req, mark, pc) && !pc.Finished? && call == CallOf(req, pc)
      modifies this
      ensures Stands(req, mark, Resume(req, pc, reply))
      ensures call.Now? ==> reply.Time?
    {
      hide Perform, CallOf, Resume, Reached;
      world := *;
      var inp: Input := *;
      var answer := Perform(world, call, inp);
      ClockAnswers(world, call, inp);
      ghost var e := Event(world, inp, call, answer.reply, answer.world);
      Advance(req, mark, pc, e, trace + [e]);
      trace := trace + [e];
      world, reply := answer.world, answer.reply;
    }

    /** The next key of a map iteration, in no particular order. */
    method Choose(dns: set<string>, ghost req: Key, ghost mark: nat, ghost pc: Pc) returns (dn: string)
      requires dns != {} && Stands(req, mark, pc) && !pc.Finished? && CallOf(req, pc) == Call.Choose(dns)
      modifies this
      ensures dn in dns && Stands(req, mark, Resume(req, pc, Chosen(dn)))
    {
      hide CallOf, Resume, Reached;
      dn :| dn in dns;
      ghost var e := Event(world, Input(Success, 0, [], dn, ""), Call.Choose(dns), Chosen(dn), world);
      Advance(req, mark, pc, e, trace + [e]);
      trace := trace + [e];
    }
  }

  /** createLabels: the standard labels, overridden by the given ones (controllers/util.go). */
  method CreateLabels(instance: string, kind: Kind, extra: Labels) returns (labels: Labels)
    ensures labels == StandardLabels(instance, kind) + extra
  {
    hide StandardLabels;
    labels := StandardLabels(instance, kind);
    var todo := extra.Keys;
    assert extra - extra.Keys == map[];
    while todo != {}
      invariant todo <= extra.Keys
      invariant labels == StandardLabels(instance, kind) + (extra - todo)
      decreases |todo|
    {
      var k :| k in todo;
      OneMore(StandardLabels(instance, kind), extra, todo, k);
      labels := labels[k := extra[k]];
      todo := todo - {k};
    }
    assert extra - {} == extra;
  }

  lemma OneMore(standard: Labels, extra: Labels, todo: set<string>, k: string)
    requires todo <= extra.Keys && k in todo
    ensures (standard + (extra - todo))[k := extra[k]] == standard + (extra - (todo - {k}))
  {
    var a, b := (standard + (extra - todo))[k := extra[k]], standard + (extra - (todo - {k}));
    assert (extra - (todo - {k})).Keys == (extra - todo).Keys + {k};
    assert a.Keys == b.Keys;
    forall l | l in a
      ensures a[l] == b[l]
    {
    }
  }

  /** CreateOrUpdate with the mutation of an upsert stage: get, then create or, if that changes anything,
      update. For the claims of a service the mutation of a missing object may list snapshots first. */
  method CreateOrUpdate(api: ApiServer, req: Key, st: Stage, cr: Object, ghost mark: nat) returns (ok: bool)
    requires Fits(req.kind, st, cr) && IsUpsert(st) && api.Stands(req, mark, At(st, cr))
    modifies api
    ensures api.Stands(req, mark, if ok then Proceed(st, cr) else GiveUp(st, cr))
  {
    hide Perform, Reached, CallOf, Resume, Fresh, Adjusted;
    UpsertTurn(req, st, cr);
    var key := Target(req, st);
    var reply := api.Ask(Get(key), req, mark, At(st, cr));
    if reply.Missing? {
      var o: Object;
      if (st.ServiceClaim? || st.Set?) && WantsLatest(cr.spec.pod.claim) {
        ghost var listing := if st.Set? then SetList else ServiceClaimList(st.ordinal);
        var claim := ClaimFromSnapshot(api, req, cr, listing, mark);
        o := Fresh(req, st, cr, claim);
      } else {
        o := Fresh(req, st, cr, cr.spec.pod.claim);
      }
      reply := api.Ask(Create(key, o), req, mark, Creating(st, cr, o));
      return reply.Found?;
    }
    if !reply.Found? || !Typed(key.kind, reply.obj) {
      return false;
    }
    var seen := reply.obj;
    var o := Adjusted(req, st, cr, seen);
    if o == seen {
      return true;
    }
    reply := api.Ask(Replace(key, o), req, mark, Updating(st, cr, seen));
    return reply.Found?;
  }

  /** setVolumeClaimTemplateFromSnapshot, for a template that asks for the latest snapshot. */
  method ClaimFromSnapshot(api: ApiServer, req: Key, cr: Object, ghost st: Stage, ghost mark: nat)
    returns (claim: ClaimSpec)
    requires req.kind == DirectoryService && Typed(DirectoryService, cr) && WantsLatest(cr.spec.pod.claim)
    requires (st.SetList? || st.ServiceClaimList?) && api.Stands(req, mark, At(st, cr))
    modifies api
    ensures var target := if st.SetList? then Set else ServiceClaim(st.ordinal);
            api.Stands(req, mark, Creating(target, cr, Fresh(req, target, cr, claim)))
    ensures claim.shape == cr.spec.pod.claim.shape
  {
    hide Perform, Reached, CallOf, Resume, Fresh, Selector, SortByCreation;
    var template := cr.spec.pod.claim;
    SeedTurn(req, st, cr, Failed);
    var reply := api.Ask(List(req.namespace, Selector(req)), req, mark, At(st, cr));
    SeedTurn(req, st, cr, reply);
    claim := template;
    if !reply.Listed? || |reply.items| == 0 {
      claim := claim.(source := None);
    } else {
      var items := SortByCreation(reply.items);
      SortSorts(reply.items);
      claim := claim.(source := Some(claim.source.value.(name := items[|items| - 1].name)));
    }
    assert claim == Resolve(template, if reply.Listed? then Some(reply.items) else None);
  }

  lemma SeedTurn(req: Key, st: Stage, cr: Object, reply: Reply)
    requires req.kind == DirectoryService && Typed(DirectoryService, cr) && (st.SetList? || st.ServiceClaimList?)
    ensures CallOf(req, At(st, cr)) == List(req.namespace, Selector(req))
    ensures var target := if st.SetList? then Set else ServiceClaim(st.ordinal);
            var listed := if reply.Listed? then Some(reply.items) else None;
            Resume(req, At(st, cr), reply)
            == Creating(target, cr, Fresh(req, target, cr, Resolve(cr.spec.pod.claim, listed)))
  {
    hide Fresh, Resolve, Selector;
  }

  /** Load the custom resource; one that is gone ends the reconcile quietly. */
  method Fetch(api: ApiServer, req: Key, ghost mark: nat) returns (cr: Option<Object>, outcome: Outcome)
    requires IsCustom(req.kind) && api.Stands(req, mark, Start)
    modifies api
    ensures cr.Some? ==> Typed(req.kind, cr.value) && api.Stands(req, mark, Begin(req, cr.value))
    ensures cr.None? ==> api.Stands(req, mark, Finished(outcome)) && outcome.Outcome? && outcome.requeue == 0
  {
    hide Perform, Reached, Begin;
    var reply := api.Ask(Get(req), req, mark, Start);
    if !reply.Found? || !Typed(req.kind, reply.obj) {
      return None, Outcome(0, !reply.Missing?);
    }
    return Some(reply.obj), Outcome(0, false);
  }

  // -------------------------------------------------------------- controllers/directorybackup_controller.go

  method ReconcileBackup(api: ApiServer, req: Key) returns (outcome: Outcome)
    requires req.kind == DirectoryBackup
    modifies api
    ensures api.Stands(req, |old(api.trace)|, Finished(outcome))
  {
    hide Perform, Reached, CallOf, Resume;
    ghost var mark := |api.trace|;
    assert api.Stands(req, mark, Start) by { NothingCalledYet(req, api.trace, mark); }
    var db, ended := Fetch(api, req, mark);
    if db.None? { return ended; }
    db := ReportBackup(api, req, db.value, mark);
    if db.None? { return Outcome(0, true); }
    outcome := BuildBackup(api, req, db.value, mark);
  }

  lemma NothingCalledYet(req: Key, trace: seq<Event>, mark: nat)
    requires mark == |trace|
    ensures Reached(req, trace[mark..]) == Some(Start)
  {
  }

  /** Look at the job and record its times. */
  method ReportBackup(api: ApiServer, req: Key, db: Object, ghost mark: nat) returns (saved: Option<Object>)
    requires req.kind == DirectoryBackup && Typed(DirectoryBackup, db) && api.Stands(req, mark, At(BackupLookup, db))
    modifies api
    ensures saved.Some? ==> Typed(DirectoryBackup, saved.value) && api.Stands(req, mark, At(BackupClaim, saved.value))
    ensures saved.None? ==> api.Stands(req, mark, Finished(Outcome(0, true)))
  {
    hide Perform, Reached, Fresh, Upserted, Scheduled, Synchronised;
    var reply := api.Ask(Get(JobKey(req)), req, mark, At(BackupLookup, db));
    if !reply.Missing? && (!reply.Found? || !Typed(Job, reply.obj)) {
      return None;
    }
    var times := db.status;
    if reply.Found? {
      times := times.(start := Some(reply.obj.meta.created));
      if reply.obj.status.completed.Some? {
        times := times.(completion := reply.obj.status.completed);
      }
    }
    reply := api.Ask(ReplaceStatus(req, db.(status := times)), req, mark, At(BackupStatus(times), db));
    if !reply.Found? || !Typed(DirectoryBackup, reply.obj) {
      return None;
    }
    return Some(reply.obj);
  }

  /** The backup claim, the snapshot, its clone and the job. */
  method BuildBackup(api: ApiServer, req: Key, db: Object, ghost mark: nat) returns (outcome: Outcome)
    requires req.kind == DirectoryBackup && Typed(DirectoryBackup, db) && api.Stands(req, mark, At(BackupClaim, db))
    modifies api
    ensures api.Stands(req, mark, Finished(outcome))
  {
    hide Perform, Reached, CallOf, Resume;
    var ok := CreateOrUpdate(api, req, BackupClaim, db, mark);
    if !ok { return Outcome(0, true); }
    ok := CreateOrUpdate(api, req, BackupSnapshot, db, mark);
    if !ok { return Outcome(0, true); }
    ok := CreateOrUpdate(api, req, BackupClone, db, mark);
    if !ok { return Outcome(0, true); }
    ok := CreateOrUpdate(api, req, BackupJob, db, mark);
    return Outcome(0, !ok);
  }

  // ------------------------------------------------------------- controllers/directoryrestore_controller.go

  method ReconcileRestore(api: ApiServer, req: Key) returns (outcome: Outcome)
    requires req.kind == DirectoryRestore
    modifies api
    ensures api.Stands(req, |old(api.trace)|, Finished(outcome))
  {
    hide Perform, Reached, CallOf, Resume;
    ghost var mark := |api.trace|;
    assert api.Stands(req, mark, Start) by { NothingCalledYet(req, api.trace, mark); }
    var dr, ended := Fetch(api, req, mark);
    if dr.None? { return ended; }
    var times, requeueWhileJobRunning := TakeSnapshot(api, req, dr.value, mark);
    if times.None? { return Outcome(0, true); }
    var finished := !requeueWhileJobRunning;
    dr := ReportRestore(api, req, dr.value, times.value, finished, mark);
    if dr.None? { return Outcome(0, true); }
    var ok := CreateOrUpdate(api, req, RestoreClaim(finished), dr.value, mark);
    if !ok { return Outcome(0, true); }
    ok := CreateOrUpdate(api, req, RestoreJob(finished), dr.value, mark);
    if !ok { return Outcome(0, true); }
    if requeueWhileJobRunning {
      return Outcome(60, false);
    }
    return Outcome(0, false);
  }

  /** Look at the job and, if it has succeeded, take the snapshot; None is a failed job or lookup. */
  method TakeSnapshot(api: ApiServer, req: Key, dr: Object, ghost mark: nat)
    returns (status: Option<Status>, requeueWhileJobRunning: bool)
    requires req.kind == DirectoryRestore && Typed(DirectoryRestore, dr) && api.Stands(req, mark, At(RestoreLookup, dr))
    modifies api
    ensures status.Some? ==>
              status.value.RunTimes? && api.Stands(req, mark,
                  At(RestoreStatus(status.value, !requeueWhileJobRunning), dr))
    ensures status.None? ==> api.Stands(req, mark, Finished(Outcome(0, true)))
  {
    hide Perform, Reached, Fresh, Upserted, Scheduled, Synchronised;
    requeueWhileJobRunning := true;
    var reply := api.Ask(Get(JobKey(req)), req, mark, At(RestoreLookup, dr));
    if !reply.Missing? && (!reply.Found? || !Typed(Job, reply.obj)) {
      return None, true;
    }
    var times := dr.status;
    if reply.Found? {
      var job := reply.obj;
      times := times.(start := Some(job.meta.created));
      if job.status.completed.Some? {
        requeueWhileJobRunning := false;
        times := times.(completion := job.status.completed);
        if job.status.failed > 0 {
          return None, false;
        }
        if job.status.succeeded > 0 {
          var _ := CreateOrUpdate(api, req, RestoreSnapshot(times), dr, mark);
        }
      }
    }
    return Some(times), requeueWhileJobRunning;
  }

  method ReportRestore(api: ApiServer, req: Key, dr: Object, times: Status, finished: bool, ghost mark: nat)
    returns (saved: Option<Object>)
    requires req.kind == DirectoryRestore && Typed(DirectoryRestore, dr) && times.RunTimes?
    requires api.Stands(req, mark, At(RestoreStatus(times, finished), dr))
    modifies api
    ensures saved.Some? ==>
              Typed(DirectoryRestore, saved.value) && api.Stands(req, mark, At(RestoreClaim(finished), saved.value))
    ensures saved.None? ==> api.Stands(req, mark, Finished(Outcome(0, true)))
  {
    hide Perform, Reached, Fresh, Upserted, Scheduled, Synchronised;
    var reply := api.Ask(ReplaceStatus(req, dr.(status := times)), req, mark, At(RestoreStatus(times, finished), dr));
    if !reply.Found? || !Typed(DirectoryRestore, reply.obj) {
      return None;
    }
    return Some(reply.obj);
  }

  // ------------------------------------------------------------- controllers/directoryservice_controller.go

  method ReconcileService(api: ApiServer, req: Key) returns (outcome: Outcome)
    requires req.kind == DirectoryService
    modifies api
    ensures api.Stands(req, |old(api.trace)|, Finished(outcome))
  {
    hide Perform, Reached, CallOf, Resume, NextClaim;
    ghost var mark := |api.trace|;
    assert api.Stands(req, mark, Start) by { NothingCalledYet(req, api.trace, mark); }
    var ds, ended := Fetch(api, req, mark);
    if ds.None? { return ended; }
    // The claims must be reconciled before the StatefulSet.
    var ok := ReconcileClaims(api, req, ds.value, mark);
    if !ok { return Outcome(60, true); }
    ok := ReconcileObjects(api, req, ds.value, mark);
    if !ok { return Outcome(60, true); }
    ds, ended := ReconcileSnapshots(api, req, ds.value, mark);
    if ds.None? { return ended; }
    outcome := SyncAndSave(api, req, ds.value, mark);
  }

  /** controllers/pvc.go: one claim for each replica. */
  method ReconcileClaims(api: ApiServer, req: Key, ds: Object, ghost mark: nat) returns (ok: bool)
    requires req.kind == DirectoryService && Typed(DirectoryService, ds) && api.Stands(req, mark, NextClaim(ds, 0))
    modifies api
    ensures api.Stands(req, mark, if ok then At(Secrets, ds) else Finished(Outcome(60, true)))
  {
    hide Perform, Reached, CallOf, Resume;
    var i := 0;
    while i < ds.spec.replicas
      invariant i >= 0
      invariant api.Stands(req, mark, NextClaim(ds, i))
      decreases ds.spec.replicas - i
    {
      ok := CreateOrUpdate(api, req, ServiceClaim(i), ds, mark);
      if !ok { return false; }
      i := i + 1;
    }
    return true;
  }

  /** Secrets, StatefulSet, proxy and Service, in this order. */
  method ReconcileObjects(api: ApiServer, req: Key, ds: Object, ghost mark: nat) returns (ok: bool)
    requires req.kind == DirectoryService && Typed(DirectoryService, ds) && api.Stands(req, mark, At(Secrets, ds))
    modifies api
    ensures api.Stands(req, mark, if ok then Proceed(Headless, ds) else Finished(Outcome(60, true)))
  {
    hide Perform, Reached, Fresh, Upserted, Scheduled, Synchronised;
    var reply := api.Ask(Attempt, req, mark, At(Secrets, ds));
    if !reply.Done? { return false; }
    ok := CreateOrUpdate(api, req, Set, ds, mark);
    if !ok { return false; }
    reply := api.Ask(Attempt, req, mark, At(Proxy, ds));
    if !reply.Done? { return false; }
    ok := CreateOrUpdate(api, req, Headless, ds, mark);
  }

  // ----------------------------------------------------------------------------- controllers/snapshots.go

  /** None ends the reconcile with the given outcome: an error to report or a panic in the prune loop. */
  method ReconcileSnapshots(api: ApiServer, req: Key, ds: Object, ghost mark: nat)
    returns (saved: Option<Object>, outcome: Outcome)
    requires req.kind == DirectoryService && Typed(DirectoryService, ds) && api.Stands(req, mark, Proceed(Headless, ds))
    modifies api
    ensures saved.Some? ==> Typed(DirectoryService, saved.value) && api.Stands(req, mark, At(Connect, saved.value))
    ensures saved.None? ==> api.Stands(req, mark, Finished(outcome))
  {
    hide Perform, Reached, Fresh, Upserted, Synchronised, NextPrune;
    outcome := Outcome(60, true);
    if !ds.spec.schedule.enabled {
      return Some(ds), outcome;
    }
    var reply := api.Ask(Now, req, mark, At(SnapClock, ds));
    var now := reply.now;
    if ds.status.lastSnapshot == 0 {
      // Skip the first time, while the directory initialises its disk.
      saved := RecordSnapshotTime(api, req, ds, SnapFirst(now), now, mark);
      return saved, outcome;
    }
    var deadline := ds.status.lastSnapshot + Int32(ds.spec.schedule.periodMinutes * 60);
    if now < deadline {
      return Some(ds), outcome;
    }
    // A failed creation is only a warning.
    var _ := CreateOrUpdate(api, req, SnapCreate(now), ds, mark);
    saved := RecordSnapshotTime(api, req, ds, SnapStatus(now), now, mark);
    if saved.None? { return None, outcome; }
    saved, outcome := PruneSnapshots(api, req, saved.value, mark);
  }

  method RecordSnapshotTime(api: ApiServer, req: Key, ds: Object, ghost st: Stage, now: nat, ghost mark: nat)
    returns (saved: Option<Object>)
    requires req.kind == DirectoryService && Typed(DirectoryService, ds)
    requires st == SnapFirst(now) || st == SnapStatus(now)
    requires api.Stands(req, mark, At(st, ds))
    modifies api
    ensures saved.Some? ==>
              && Typed(DirectoryService, saved.value)
              && api.Stands(req, mark, At(if st.SnapFirst? then Connect else SnapList, saved.value))
    ensures saved.None? ==> api.Stands(req, mark, Finished(Outcome(60, true)))
  {
    hide Perform, Reached, Fresh, Upserted, Synchronised;
    var reply := api.Ask(ReplaceStatus(req, ds.(status := ServiceStatus(now))), req, mark, At(st, ds));
    if !reply.Found? || !Typed(DirectoryService, reply.obj) {
      return None;
    }
    return Some(reply.obj);
  }

  /** Delete the oldest snapshots beyond the number to retain, ignoring errors. */
  method PruneSnapshots(api: ApiServer, req: Key, ds: Object, ghost mark: nat)
    returns (saved: Option<Object>, outcome: Outcome)
    requires req.kind == DirectoryService && Typed(DirectoryService, ds) && api.Stands(req, mark, At(SnapList, ds))
    modifies api
    ensures saved.Some? ==> saved.value == ds && api.Stands(req, mark, At(Connect, ds))
    ensures saved.None? ==> api.Stands(req, mark, Finished(outcome))
  {
    hide Perform, Reached, CallOf, Resume, SortByCreation;
    outcome := Outcome(60, true);
    ListTurn(req, ds);
    var reply := api.Ask(List(req.namespace, Selector(req)), req, mark, At(SnapList, ds));
    if !reply.Listed? {
      return None, outcome;
    }
    var items := SortByCreation(reply.items);
    var numToDelete := |items| - ds.spec.schedule.retained;
    var i := 0;
    while i < numToDelete
      invariant 0 <= i <= |items| && api.Stands(req, mark, NextPrune(ds, items, i))
      decreases numToDelete - i
    {
      if i >= |items| {
        // index out of range
        return None, Panicked(IndexOutOfRange);
      }
      PruneTurn(req, ds, items, i);
      reply := api.Ask(Delete(Key(Snapshot, req.namespace, items[i].name)), req, mark, At(Prune(items, i), ds));
      i := i + 1;
    }
    return Some(ds), outcome;
  }

  lemma ListTurn(req: Key, ds: Object)
    requires req.kind == DirectoryService && Typed(DirectoryService, ds)
    ensures CallOf(req, At(SnapList, ds)) == List(req.namespace, Selector(req))
    ensures forall reply ::
              Resume(req, At(SnapList, ds), reply)
              == if reply.Listed? then NextPrune(ds, SortByCreation(reply.items), 0) else Finished(Outcome(60, true))
  {
  }

  lemma PruneTurn(req: Key, ds: Object, items: seq<Item>, i: nat)
    requires req.kind == DirectoryService && Typed(DirectoryService, ds) && i < |items|
    ensures CallOf(req, At(Prune(items, i), ds)) == Delete(Key(Snapshot, req.namespace, items[i].name))
    ensures forall reply :: Resume(req, At(Prune(items, i), ds), reply) == NextPrune(ds, items, i + 1)
  {
  }

  // ----------------------------------------------------------------------------- controllers/passwords.go

  /** Connect to the directory, update the passwords, then write the custom resource and its status. */
  method SyncAndSave(api: ApiServer, req: Key, cr: Object, ghost mark: nat) returns (outcome: Outcome)
    requires req.kind == DirectoryService && Typed(DirectoryService, cr) && api.Stands(req, mark, At(Connect, cr))
    modifies api
    ensures api.Stands(req, mark, Finished(outcome))
  {
    hide Perform, Reached, Fresh, Upserted, Scheduled;
    var ds := cr;
    var reply := api.Ask(Attempt, req, mark, At(Connect, ds));
    if !reply.Done? {
      return Outcome(90, false);
    }
    var annotations, ended := UpdatePasswords(api, req, ds, mark);
    if annotations.None? {
      return ended;
    }
    reply := api.Ask(Replace(req, ds.(meta := ds.meta.(annotations := annotations.value))), req, mark,
                     At(UpdateCr(annotations.value), ds));
    if !reply.Found? || !Typed(DirectoryService, reply.obj) {
      return Outcome(0, true);
    }
    ds := reply.obj;
    reply := api.Ask(ReplaceStatus(req, ds), req, mark, At(FinalStatus, ds));
    if !reply.Found? || !Typed(DirectoryService, reply.obj) {
      return Outcome(0, true);
    }
    return Outcome(60, false);
  }

  /** The annotations to write back; None if the pass did not get through. */
  method UpdatePasswords(api: ApiServer, req: Key, ds: Object, ghost mark: nat)
    returns (annotations: Option<Labels>, outcome: Outcome)
    requires req.kind == DirectoryService && Typed(DirectoryService, ds) && api.Stands(req, mark, At(PassClock, ds))
    modifies api
    ensures annotations.Some? ==> api.Stands(req, mark, At(UpdateCr(annotations.value), ds))
    ensures annotations.None? ==> api.Stands(req, mark, Finished(outcome))
  {
    hide Perform, Reached, Fresh, Upserted, Scheduled, FormatInt;
    outcome := Outcome(60, false);
    var reply := api.Ask(Now, req, mark, At(PassClock, ds));
    var now := reply.now;
    if TooSoon(ds.meta.annotations, now) {
      return Some(ds.meta.annotations), outcome;
    }
    var todo := ds.spec.passwords.Keys;
    while todo != {}
      invariant todo <= ds.spec.passwords.Keys && api.Stands(req, mark, NextAccount(ds, todo, now))
      decreases |todo|
    {
      var key := api.Choose(todo, req, mark, At(PassChoose(todo, now), ds));
      todo := todo - {key};
      if key != "uid=admin" && key != "uid=monitor" {
        var failure := UpdateAccount(api, req, ds, key, todo, now, mark);
        if failure.Some? { return None, failure.value; }
      }
    }
    if ds.meta.annotations == map[] {
      // assignment to an entry of a nil map
      return None, Panicked(NilMap);
    }
    return Some(ds.meta.annotations[UPDATED_STATUS := "updated"][LAST_CHECK := FormatInt(now)]), outcome;
  }

  /** Look up one password, try it, and change it if it does not work. */
  method UpdateAccount(
      api: ApiServer, req: Key, ds: Object, dn: string, ghost todo: set<string>, ghost now: nat, ghost mark: nat)
    returns (failure: Option<Outcome>)
    requires req.kind == DirectoryService && Typed(DirectoryService, ds) && dn in ds.spec.passwords
    requires todo <= ds.spec.passwords.Keys && api.Stands(req, mark, At(PassLookup(dn, todo, now), ds))
    modifies api
    ensures api.Stands(req, mark, if failure.None? then NextAccount(ds, todo, now) else Finished(failure.value))
  {
    hide Perform, Reached, CallOf, Resume, NextAccount;
    AccountTurn(req, ds, dn, todo, now);
    var secret := ds.spec.passwords[dn];
    var reply := api.Ask(Get(Key(Secret, req.namespace, secret.secretName)), req, mark,
        At(PassLookup(dn, todo, now), ds));
    if !reply.Found? || !Typed(Secret, reply.obj) {
      return Some(Outcome(60, false));
    }
    var password := if secret.key in reply.obj.spec.data then reply.obj.spec.data[secret.key] else "";
    var account := Account(req.namespace, req.name, dn);
    PasswordTurn(req, ds, dn, password, todo, now);
    reply := api.Ask(Bind(account, password), req, mark, At(PassBind(dn, password, todo, now), ds));
    if reply.Unreachable? {
      // the deferred close of a connection that is nil
      return Some(Panicked(NilConnection));
    }
    if reply.Done? {
      return None;
    }
    reply := api.Ask(SetPassword(account, password), req, mark, At(PassSet(dn, password, todo, now), ds));
    return if reply.Done? then None else Some(Outcome(60, false));
  }

  lemma AccountTurn(req: Key, ds: Object, dn: string, todo: set<string>, now: nat)
    requires req.kind == DirectoryService && Typed(DirectoryService, ds) && dn in ds.spec.passwords
    requires todo <= ds.spec.passwords.Keys
    ensures var pc := At(PassLookup(dn, todo, now), ds);
            && CallOf(req, pc) == Get(Key(Secret, req.namespace, ds.spec.passwords[dn].secretName))
            && forall reply ::
                 Resume(req, pc, reply)
                 == if !reply.Found? || !Typed(Secret, reply.obj) then Finished(Outcome(60, false))
                    else
                      var data, key := reply.obj.spec.data, ds.spec.passwords[dn].key;
                      At(PassBind(dn, if key in data then data[key] else "", todo, now), ds)
  {
  }

  lemma PasswordTurn(req: Key, ds: Object, dn: string, password: string, todo: set<string>, now: nat)
    requires req.kind == DirectoryService && Typed(DirectoryService, ds) && todo <= ds.spec.passwords.Keys
    ensures var bind, change := At(PassBind(dn, password, todo, now), ds), At(PassSet(dn, password, todo, now), ds);
            && CallOf(req, bind) == Bind(Account(req.namespace, req.name, dn), password)
            && CallOf(req, change) == SetPassword(Account(req.namespace, req.name, dn), password)
            && (forall reply ::
                  Resume(req, bind, reply)
                  == if reply.Unreachable? then Finished(Panicked(NilConnection))
                     else if reply.Done? then NextAccount(ds, todo, now) else change)
            && (forall reply ::
                  Resume(req, change, reply)
                  == if reply.Done? then NextAccount(ds, todo, now) else Finished(Outcome(60, false)))
  {
    hide NextAccount;
  }
}
