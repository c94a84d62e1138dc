/** A restore takes its snapshot only after its job has succeeded (controllers/directoryrestore_controller.go). */
module Restores {
  import opened Text
  import opened Naming
  import opened Cluster
  import opened Listing
  import opened Controllers
  import opened Runs
  import opened Separation

  function SnapKey(r: Key): Key { Key(Snapshot, r.namespace, Temp(r.name)) }

  /** The restore job completed without a failure. */
  predicate Clean(store: Store, r: Key) {
    && JobKey(r) in store
    && Typed(Job, store[JobKey(r)])
    && store[JobKey(r)].status.completed.Some?
    && store[JobKey(r)].status.failed == 0
  }

  /** It completed with a success and without a failure. */
  predicate GateOpen(store: Store, r: Key) {
    Clean(store, r) && store[JobKey(r)].status.succeeded > 0
  }

  /** The completion time that a reconcile is about to record, or has in memory. */
  predicate Completion(pc: Pc) {
    && (pc.At? || pc.Creating? || pc.Updating?)
    && (|| (pc.cr.status.RunTimes? && pc.cr.status.completion.Some?)
        || (pc.stage.RestoreSnapshot? && pc.stage.times.RunTimes? && pc.stage.times.completion.Some?)
        || (pc.stage.RestoreStatus? && pc.stage.times.RunTimes? && pc.stage.times.completion.Some?))
  }

  predicate TakingSnapshot(pc: Pc) {
    (pc.At? || pc.Creating? || pc.Updating?) && pc.stage.RestoreSnapshot?
  }

  ghost predicate StoreInv(store: Store, r: Key) {
    && (JobKey(r) in store ==> store[JobKey(r)].spec.JobObject? && store[JobKey(r)].spec.dataClaim == Temp(r.name))
    && (SnapKey(r) in store ==>
          && GateOpen(store, r)
          && store[SnapKey(r)].spec.SnapshotObject? && store[SnapKey(r)].spec.source == Temp(r.name))
    && (r in store && store[r].status.RunTimes? && store[r].status.completion.Some? ==> Clean(store, r))
  }

  ghost predicate PcInv(store: Store, r: Key, pc: Pc) {
    && (TakingSnapshot(pc) ==> GateOpen(store, r))
    && (Completion(pc) ==> Clean(store, r))
  }

  /** Other custom resources have names apart. Nobody else makes the snapshot or the job, makes the snapshot one
      of another claim, or deletes a job that has completed cleanly; the job's mounts stay and, once it has so
      completed, does its status; and the status of the custom resource is left to the operator. So a job that
      has failed may be deleted to try again. */
  ghost predicate Permitted(w: World, l: Label, r: Key) {
    && (l.Step? ==> IsCustom(l.req.kind) && (l.req == r || NamesApart(r, l.req)))
    && (l.Edit? && l.key == SnapKey(r) ==>
          l.key in w.store && l.obj.spec.SnapshotObject? && l.obj.spec.source == Temp(r.name))
    && (l == Remove(JobKey(r)) ==> !Clean(w.store, r))
    && (l.Edit? && l.key == JobKey(r) ==>
          && l.key in w.store && l.obj.spec == w.store[l.key].spec
          && (Clean(w.store, r) ==> l.obj.status == w.store[l.key].status))
    && (l.Edit? && l.key == r ==>
          if r in w.store then l.obj.status == w.store[r].status
          else l.obj.status.RunTimes? && l.obj.status.completion.None?)
  }

  lemma EditKeepsClean(tools: Tools, w: World, l: Label, r: Key)
    requires l.Edit? && l.key == JobKey(r) && Permitted(w, l, r) && Clean(w.store, r)
    ensures var store := Outside(tools, w, l).store;
            l.key in store && store[l.key].spec == w.store[l.key].spec && store[l.key].status == w.store[l.key].status
  {
  }

  /** A job that has completed cleanly is never undone. */
  lemma CleanStays(tools: Tools, s: System, l: Label, r: Key)
    requires Sound(s) && r.kind == DirectoryRestore && Permitted(s.world, l, r) && Clean(s.world.store, r)
    ensures Clean(Do(tools, s, l).world.store, r)
    ensures GateOpen(s.world.store, r) ==> GateOpen(Do(tools, s, l).world.store, r)
  {
    hide Perform, CallOf, Resume, Outside;
    if l.Step? {
      var pc := PcOf(s, l.req);
      assert ThreadOk(s.world, l.req, pc);
      StepPreserves(s.world, l.req, pc, l.inp, JobKey(r));
    } else if l.Edit? && l.key == JobKey(r) {
      EditKeepsClean(tools, s.world, l, r);
    } else if !l.Crash? {
      OutsideKeeps(tools, s.world, l, JobKey(r));
    }
  }

  /** What a reconcile takes from looking up its job is true of the job. */
  lemma LookedUp(w: World, r: Key, pc: Pc, inp: Input)
    requires ThreadOk(w, r, pc) && r.kind == DirectoryRestore && PcInv(w.store, r, pc)
    requires pc.At? && pc.stage.RestoreLookup?
    ensures PcInv(w.store, r, Resume(r, pc, Perform(w, CallOf(r, pc), inp).reply))
  {
  }

  lemma PcAfter(w: World, r: Key, pc: Pc, inp: Input)
    requires ThreadOk(w, r, pc) && r.kind == DirectoryRestore && PcInv(w.store, r, pc)
    requires !(pc.At? && pc.stage.RestoreLookup?)
    ensures var next := Resume(r, pc, Perform(w, CallOf(r, pc), inp).reply);
            && (TakingSnapshot(next) ==> TakingSnapshot(pc))
            && (Completion(next) ==>
                  || Completion(pc)
                  || (next.cr.status.RunTimes? && next.cr.status.completion.Some? && (pc.Start? || next.cr != pc.cr)))
  {
    hide Perform, Fresh, Scheduled, Synchronised, Resolve;
  }

  /** What the restore's reconcile creates keeps the invariant, thanks to the gate. */
  lemma OwnCreation(w: World, r: Key, pc: Pc, o: Object, tag: nat)
    requires ThreadOk(w, r, pc) && r.kind == DirectoryRestore && StoreInv(w.store, r) && PcInv(w.store, r, pc)
    requires pc.Creating? && o.spec == pc.obj.spec && Target(r, pc.stage) !in w.store
    ensures StoreInv(Written(w, Target(r, pc.stage), o, tag).store, r)
  {
    hide StandardLabels, NewMeta, Owner, Completion, InStep;
    TempInjective(r.name, r.name);
  }

  lemma OwnStep(w: World, r: Key, pc: Pc, inp: Input)
    requires ThreadOk(w, r, pc) && r.kind == DirectoryRestore && StoreInv(w.store, r) && PcInv(w.store, r, pc)
    ensures StoreInv(Perform(w, CallOf(r, pc), inp).world.store, r)
  {
    hide Perform, CallOf, Fresh, Target;
    StepEffect(w, r, pc, inp);
    if pc.Creating? && Target(r, pc.stage) !in w.store {
      OwnCreation(w, r, pc, Stamped(pc.obj, inp.tag, w.clock), inp.tag);
    } else if pc.At? {
      OwnWriteBack(pc.stage, pc.cr);
    } else if pc.Updating? {
      assert Adjusted(r, pc.stage, pc.cr, pc.seen) == pc.seen;
    }
  }

  lemma OwnWriteBack(st: Stage, cr: Object)
    requires Typed(DirectoryRestore, cr) && StageKind(st) == DirectoryRestore
    requires st.RestoreStatus? ==> st.times.RunTimes?
    ensures var o := WrittenBack(st, cr);
            o.status.RunTimes? && o.status.completion.Some? ==> Completion(At(st, cr))
  {
  }

  lemma PcInvNext(w: World, r: Key, pc: Pc, inp: Input)
    requires ThreadOk(w, r, pc) && r.kind == DirectoryRestore && StoreInv(w.store, r) && PcInv(w.store, r, pc)
    ensures var a := Perform(w, CallOf(r, pc), inp);
            && (Clean(w.store, r) ==> Clean(a.world.store, r))
            && PcInv(a.world.store, r, Resume(r, pc, a.reply))
  {
    hide Resume, Perform, CallOf;
    var a := Perform(w, CallOf(r, pc), inp);
    var next := Resume(r, pc, a.reply);
    if JobKey(r) in w.store {
      StepPreserves(w, r, pc, inp, JobKey(r));
    }
    OwnStep(w, r, pc, inp);
    if pc.At? && pc.stage.RestoreLookup? {
      LookedUp(w, r, pc, inp);
    } else {
      PcAfter(w, r, pc, inp);
      CrSpecAfter(w, r, pc, inp);
    }
  }

  ghost predicate Inv(s: System, r: Key) {
    StoreInv(s.world.store, r) && PcInv(s.world.store, r, PcOf(s, r))
  }

  lemma OtherStep(s: System, l: Label, r: Key)
    requires Sound(s) && Inv(s, r) && r.kind == DirectoryRestore && Permitted(s.world, l, r)
    requires l.Step? && l.req != r
    ensures Inv(Move(s, l.req, l.inp), r)
  {
    hide Resume, Perform, CallOf, NamesApart, Completion;
    var pc := PcOf(s, l.req);
    assert ThreadOk(s.world, l.req, pc);
    ApartNeverMeet(r, l.req, r);
    StrangerStep(s.world, l.req, pc, l.inp, r);
    ApartNeverMeet(r, l.req, JobKey(r));
    StrangerStep(s.world, l.req, pc, l.inp, JobKey(r));
    SnapshotOnlyGoes(s.world, r, l.req, pc, l.inp);
  }

  /** Another custom resource's reconcile leaves the restore's snapshot alone or, at most, prunes it. */
  lemma SnapshotOnlyGoes(w: World, r: Key, req: Key, pc: Pc, inp: Input)
    requires ThreadOk(w, req, pc) && r.kind == DirectoryRestore && req != r
    requires IsCustom(req.kind) && NamesApart(r, req)
    ensures var store := Perform(w, CallOf(req, pc), inp).world.store;
            SnapKey(r) in store ==> SnapKey(r) in w.store && store[SnapKey(r)] == w.store[SnapKey(r)]
  {
    hide Perform, CallOf, Fresh, Adjusted, Target, NamesApart;
    ApartNeverMeet(r, req, SnapKey(r));
    StepEffect(w, req, pc, inp);
    if pc.Creating? || pc.Updating? {
      TargetIsOwned(req, pc.stage);
    }
  }

  lemma OutsideStoreInv(tools: Tools, w: World, l: Label, r: Key)
    requires !l.Step? && !l.Crash? && r.kind == DirectoryRestore && Permitted(w, l, r) && StoreInv(w.store, r)
    requires forall key :: key == r || key == JobKey(r) || key == SnapKey(r) ==> !Touches(l, key)
    requires Clean(w.store, r) ==> Clean(Outside(tools, w, l).store, r)
    requires GateOpen(w.store, r) ==> GateOpen(Outside(tools, w, l).store, r)
    ensures StoreInv(Outside(tools, w, l).store, r)
  {
    hide Outside, Clean, GateOpen;
    OutsideKeeps(tools, w, l, r);
    OutsideKeeps(tools, w, l, JobKey(r));
    OutsideKeeps(tools, w, l, SnapKey(r));
  }

  lemma TouchedStoreInv(tools: Tools, w: World, l: Label, r: Key, key: Key)
    requires Touches(l, key) && (key == r || key == JobKey(r) || key == SnapKey(r))
    requires r.kind == DirectoryRestore && Permitted(w, l, r) && StoreInv(w.store, r)
    ensures StoreInv(Outside(tools, w, l).store, r)
  {
    hide NamesApart, JobRan, Provisioned;
    if l.Edit? {
      hide Outside;
      TouchedByEdit(tools, w, l, r);
    }
  }

  lemma TouchedByEdit(tools: Tools, w: World, l: Label, r: Key)
    requires l.Edit? && (l.key == r || l.key == JobKey(r) || l.key == SnapKey(r))
    requires r.kind == DirectoryRestore && Permitted(w, l, r) && StoreInv(w.store, r)
    ensures StoreInv(Outside(tools, w, l).store, r)
  {
    hide NamesApart, StoreInv, Clean;
    var store := Outside(tools, w, l).store;
    if store != w.store {
      assert Typed(l.key.kind, l.obj) && store == w.store[l.key := store[l.key]];
      assert store[l.key].spec == l.obj.spec && store[l.key].status == l.obj.status;
      if l.key == r {
        CrEdited(w.store, r, store[l.key]);
      } else if l.key == SnapKey(r) {
        SnapEdited(w.store, r, store[l.key]);
      } else {
        JobEdited(w.store, r, store[l.key]);
      }
    }
  }

  lemma CrEdited(store: Store, r: Key, o: Object)
    requires r.kind == DirectoryRestore && StoreInv(store, r)
    requires if r in store then o.status == store[r].status else o.status.RunTimes? && o.status.completion.None?
    ensures StoreInv(store[r := o], r)
  {
  }

  lemma SnapEdited(store: Store, r: Key, o: Object)
    requires r.kind == DirectoryRestore && StoreInv(store, r) && SnapKey(r) in store
    requires o.spec.SnapshotObject? && o.spec.source == Temp(r.name)
    ensures StoreInv(store[SnapKey(r) := o], r)
  {
  }

  lemma JobEdited(store: Store, r: Key, o: Object)
    requires r.kind == DirectoryRestore && StoreInv(store, r) && JobKey(r) in store && o.spec == store[JobKey(r)].spec
    requires Clean(store, r) ==> o.status == store[JobKey(r)].status
    ensures StoreInv(store[JobKey(r) := o], r)
  {
  }

  lemma InvKept(tools: Tools, s: System, l: Label, r: Key)
    requires Sound(s) && Inv(s, r) && r.kind == DirectoryRestore && Permitted(s.world, l, r)
    ensures Inv(Do(tools, s, l), r)
  {
    hide Resume, Perform, CallOf, Outside, StoreInv, Clean, GateOpen, Completion;
    if l.Step? {
      var pc := PcOf(s, l.req);
      assert ThreadOk(s.world, l.req, pc);
      if l.req == r {
        OwnStep(s.world, r, pc, l.inp);
        PcInvNext(s.world, r, pc, l.inp);
        StartInv(Do(tools, s, l).world.store, r);
      } else {
        OtherStep(s, l, r);
      }
    } else if l.Crash? {
      StartInv(s.world.store, r);
    } else {
      if Clean(s.world.store, r) {
        CleanStays(tools, s, l, r);
      }
      GateIsClean(s.world.store, r);
      if Touches(l, r) || Touches(l, JobKey(r)) || Touches(l, SnapKey(r)) {
        TouchedStoreInv(tools, s.world, l, r, l.key);
      } else {
        OutsideStoreInv(tools, s.world, l, r);
      }
    }
  }

  lemma StartInv(store: Store, r: Key)
    ensures PcInv(store, r, Start)
  {
  }

  lemma GateIsClean(store: Store, r: Key)
    ensures GateOpen(store, r) ==> Clean(store, r)
  {
  }

  ghost predicate AllPermitted(tools: Tools, s: System, run: seq<Label>, r: Key)
    decreases |run|
  {
    run != [] ==> Permitted(s.world, run[0], r) && AllPermitted(tools, Do(tools, s, run[0]), run[1..], r)
  }

  lemma {:induction false} InvRuns(tools: Tools, s: System, run: seq<Label>, r: Key)
    requires Sound(s) && Inv(s, r) && r.kind == DirectoryRestore && AllPermitted(tools, s, run, r)
    ensures Inv(Exec(tools, s, run), r)
    decreases |run|
  {
    if run == [] {
    } else {
      SoundKept(tools, s, run[0]);
      InvKept(tools, s, run[0], r);
      InvRuns(tools, Do(tools, s, run[0]), run[1..], r);
    }
  }

  /** Over all runs: the snapshot of a restore exists only if the restore job has completed with a success
      and no failure, it is a snapshot of the very claim that job mounts as data, and a recorded completion
      time means a completion without failure. */
  lemma SnapshotOnlyAfterSuccess(tools: Tools, s: System, run: seq<Label>, r: Key)
    requires Sound(s) && s.threads == map[] && r.kind == DirectoryRestore && AllPermitted(tools, s, run, r)
    requires JobKey(r) !in s.world.store && SnapKey(r) !in s.world.store
    requires r in s.world.store ==> s.world.store[r].status == RunTimes(None, None)
    ensures var store := Exec(tools, s, run).world.store;
            && (SnapKey(r) in store ==>
                  && JobKey(r) in store && store[JobKey(r)].spec.JobObject? && store[JobKey(r)].status.JobStatus?
                  && store[JobKey(r)].status.completed.Some?
                  && store[JobKey(r)].status.succeeded > 0 && store[JobKey(r)].status.failed == 0
                  && store[SnapKey(r)].spec.SnapshotObject?
                  && store[SnapKey(r)].spec.source == store[JobKey(r)].spec.dataClaim)
            && (r in store && store[r].status.RunTimes? && store[r].status.completion.Some? ==>
                  && JobKey(r) in store && store[JobKey(r)].status.JobStatus?
                  && store[JobKey(r)].status.completed.Some? && store[JobKey(r)].status.failed == 0)
  {
    hide Exec, AllPermitted;
    InvRuns(tools, s, run, r);
  }

  // ------------------------------------------------------------------- the gate without any premise

  /** A job that has completed with a success and no failure. */
  predicate OpensGate(job: Object) {
    && Typed(Job, job)
    && job.status.completed.Some? && job.status.succeeded > 0 && job.status.failed == 0
  }

  /** The job that the reconcile of `r` under way at the end of the run has read, if it has read one. */
  ghost function JobRead(tools: Tools, s: System, run: seq<Label>, r: Key): Option<Object>
    decreases |run|
  {
    if run == [] then None
    else
      var n := |run| - 1;
      var before, l := Exec(tools, s, run[..n]), run[n];
      var pc := PcOf(before, r);
      if l.Crash? || (l.Step? && l.req == r && pc.Start?) then None
      else if l.Step? && l.req == r && Ready(r.kind, pc) && pc.At? && pc.stage.RestoreLookup? then
        var reply := Perform(before.world, CallOf(r, pc), l.inp).reply;
        if reply.Found? then Some(reply.obj) else None
      else JobRead(tools, s, run[..n], r)
  }

  lemma TakingNext(r: Key, pc: Pc, reply: Reply)
    requires Ready(r.kind, pc) && !pc.Finished? && r.kind == DirectoryRestore && TakingSnapshot(Resume(r, pc, reply))
    ensures !pc.Start?
    ensures if pc.At? && pc.stage.RestoreLookup? then reply.Found? && OpensGate(reply.obj) else TakingSnapshot(pc)
  {
    hide Fresh, Scheduled, Synchronised, Resolve, Adjusted;
  }

  /** In every run whatsoever, also one in which others delete, make or change jobs and snapshots at will, a
      reconcile sets out to make the snapshot only if the job that it has read itself had completed with a
      success and no failure. */
  lemma {:induction false} GateWasOpen(tools: Tools, s: System, run: seq<Label>, r: Key)
    requires Sound(s) && r.kind == DirectoryRestore && r !in s.threads
    requires TakingSnapshot(PcOf(Exec(tools, s, run), r))
    ensures JobRead(tools, s, run, r).Some? && OpensGate(JobRead(tools, s, run, r).value)
    decreases |run|
  {
    hide Perform, CallOf, Resume, Outside, OpensGate;
    if run == [] {
      assert false;
    } else {
      var n := |run| - 1;
      var before, l := Exec(tools, s, run[..n]), run[n];
      assert run == run[..n] + [l];
      ExecOne(tools, s, run[..n], l);
      SoundRuns(tools, s, run[..n]);
      var pc := PcOf(before, r);
      if l.Step? && l.req == r {
        assert ThreadOk(before.world, r, pc);
        TakingNext(r, pc, Perform(before.world, CallOf(r, pc), l.inp).reply);
        if !(pc.At? && pc.stage.RestoreLookup?) {
          GateWasOpen(tools, s, run[..n], r);
        }
      } else {
        GateWasOpen(tools, s, run[..n], r);
      }
    }
  }

  /** So whenever a step of the restore makes the snapshot, that job had opened the gate. */
  lemma SnapshotMadeThroughGate(tools: Tools, s: System, run: seq<Label>, r: Key, inp: Input)
    requires Sound(s) && r.kind == DirectoryRestore && r !in s.threads
    requires SnapKey(r) !in Exec(tools, s, run).world.store
    requires SnapKey(r) in Move(Exec(tools, s, run), r, inp).world.store
    ensures JobRead(tools, s, run, r).Some? && OpensGate(JobRead(tools, s, run, r).value)
  {
    hide Perform, CallOf, Resume, OpensGate, JobRead, Exec, Fresh;
    var before := Exec(tools, s, run);
    SoundRuns(tools, s, run);
    assert ThreadOk(before.world, r, PcOf(before, r));
    StepEffect(before.world, r, PcOf(before, r), inp);
    GateWasOpen(tools, s, run, r);
  }
}
