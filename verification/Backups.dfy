/** What a backup builds, at every point where it may be interrupted (controllers/directorybackup_controller.go). */
module Backups {
  import opened Text
  import opened Naming
  import opened Cluster
  import opened Listing
  import opened Controllers
  import opened Runs
  import opened Separation

  /** The objects of a backup in the order of their creation. */
  function Part(b: Key, i: nat): Key
    requires i < 4
  {
    Target(b, if i == 0 then BackupClaim
              else if i == 1 then BackupSnapshot
              else if i == 2 then BackupClone
              else BackupJob)
  }

  function CloneSource(b: Key): DataSource {
    DataSource("VolumeSnapshot", Temp(b.name), SNAPSHOT_GROUP)
  }

  /** What each of them refers to, for a backup of claim `c`. */
  predicate Right(b: Key, c: string, i: nat, spec: Spec)
    requires i < 4
  {
    if i == 0 then spec.ClaimObject?
    else if i == 1 then spec.SnapshotObject? && spec.source == c
    else if i == 2 then spec.ClaimObject? && spec.claim.source == Some(CloneSource(b))
    else spec.JobObject? && spec.tool == BackupTool && spec.dataClaim == Temp(b.name) && spec.backupClaim == b.name
  }

  ghost predicate UpTo(store: Store, b: Key, n: nat)
    requires n <= 4
  {
    forall i: nat :: i < n ==> Part(b, i) in store
  }

  /** Each part that exists refers to what it should, and stands on all the earlier ones. */
  ghost predicate Built(store: Store, b: Key, c: string) {
    forall i: nat :: i < 4 && Part(b, i) in store ==>
      Right(b, c, i, store[Part(b, i)].spec) && UpTo(store, b, i)
  }

  /** How many parts a reconcile has made sure of. */
  function Assured(pc: Pc): (n: nat)
    ensures n <= 3
  {
    if !(pc.At? || pc.Creating? || pc.Updating?) then 0
    else if pc.stage.BackupSnapshot? then 1
    else if pc.stage.BackupClone? then 2
    else if pc.stage.BackupJob? then 3
    else 0
  }

  ghost predicate Aimed(o: Object, c: string) {
    o.spec.BackupSpec? ==> o.spec.claimToBackup == c
  }

  ghost predicate Inv(s: System, b: Key, c: string) {
    && Built(s.world.store, b, c)
    && UpTo(s.world.store, b, Assured(PcOf(s, b)))
    && (b in s.world.store ==> Aimed(s.world.store[b], c))
    && (b in s.threads && !s.threads[b].Start? && !s.threads[b].Finished? ==> Aimed(s.threads[b].cr, c))
    && ShieldedFromAll(s, Part(b, 1))
  }

  /** Other custom resources have names apart. Others may set the status and the metadata of the backup's
      objects (a failing job, say) but not make them, make them refer to something else or give the snapshot
      the labels of a service; they may delete the job but not what it stands on; and they do not point the
      backup at another claim. */
  ghost predicate Permitted(w: World, l: Label, b: Key, c: string) {
    && (l.Step? ==> IsCustom(l.req.kind) && (l.req == b || NamesApart(b, l.req)))
    && (forall i: nat :: i < 4 && l.Edit? && l.key == Part(b, i) ==> l.key in w.store && Right(b, c, i, l.obj.spec))
    && (forall i: nat :: i < 3 ==> l != Remove(Part(b, i)))
    && LeavesForeign(l, Part(b, 1))
    && (l.Edit? && l.key == b ==> Aimed(l.obj, c))
  }

  /** The backup's reconcile changes at most the part it is working on, and makes it right. */
  lemma OwnPart(w: World, b: Key, c: string, pc: Pc, inp: Input, i: nat)
    requires ThreadOk(w, b, pc) && b.kind == DirectoryBackup && i < 4
    requires !pc.Start? ==> Aimed(pc.cr, c)
    ensures var store := Perform(w, CallOf(b, pc), inp).world.store;
            || Held(w.store, store, Part(b, i))
            || (&& Assured(pc) == i && Part(b, i) in store && Right(b, c, i, store[Part(b, i)].spec))
  {
    hide Perform, CallOf, StandardLabels, Owner, UpsertOwner;
    StepEffect(w, b, pc, inp);
    TempInjective(b.name, b.name);
  }

  lemma AssuredGrows(b: Key, pc: Pc, reply: Reply)
    requires Ready(b.kind, pc) && !pc.Finished?
    ensures var next := Resume(b, pc, reply);
            || Assured(next) <= Assured(pc)
            || (&& !pc.Start? && IsUpsert(pc.stage) && StageKind(pc.stage) == DirectoryBackup && reply.Found?
                && Assured(next) == Assured(pc) + 1 && Target(b, pc.stage) == Part(b, Assured(pc)))
  {
    hide Scheduled, Synchronised, Fresh, Resolve;
  }

  lemma OwnBuilt(w: World, b: Key, c: string, pc: Pc, inp: Input)
    requires ThreadOk(w, b, pc) && b.kind == DirectoryBackup && (!pc.Start? ==> Aimed(pc.cr, c))
    requires Built(w.store, b, c) && UpTo(w.store, b, Assured(pc))
    ensures var a := Perform(w, CallOf(b, pc), inp);
            Built(a.world.store, b, c) && UpTo(a.world.store, b, Assured(Resume(b, pc, a.reply)))
  {
    hide Perform, CallOf, Resume, Right;
    var a := Perform(w, CallOf(b, pc), inp);
    forall i: nat | i < 4
      ensures Part(b, i) in w.store ==> Part(b, i) in a.world.store
      ensures || Held(w.store, a.world.store, Part(b, i))
              || (Assured(pc) == i && Part(b, i) in a.world.store && Right(b, c, i, a.world.store[Part(b, i)].spec))
    {
      OwnPart(w, b, c, pc, inp, i);
    }
    AssuredGrows(b, pc, a.reply);
    if !pc.Start? && IsUpsert(pc.stage) && a.reply.Found? {
      UpsertStored(w, b, pc, inp);
    }
  }

  lemma OwnStep(tools: Tools, s: System, l: Label, b: Key, c: string)
    requires Sound(s) && Inv(s, b, c) && b.kind == DirectoryBackup && l.Step? && l.req == b
    ensures Inv(Do(tools, s, l), b, c)
  {
    hide Perform, CallOf, Resume, Built, UpTo;
    var pc := PcOf(s, b);
    assert ThreadOk(s.world, b, pc);
    OwnBuilt(s.world, b, c, pc, l.inp);
    CrSpecAfter(s.world, b, pc, l.inp);
    ShieldsKept(tools, s, l, Part(b, 1));
  }

  lemma EditAims(tools: Tools, w: World, l: Label, b: Key, c: string)
    requires Touches(l, b) && Permitted(w, l, b, c) && (b in w.store ==> Aimed(w.store[b], c))
    ensures var store := Outside(tools, w, l).store;
            b in store ==> Aimed(store[b], c)
  {
    hide LeavesForeign;
  }

  /** A part that others touch still refers to what it should, and only the job may go. */
  lemma TouchedPart(tools: Tools, w: World, l: Label, b: Key, c: string, i: nat)
    requires i < 4 && Touches(l, Part(b, i)) && Permitted(w, l, b, c)
    requires Part(b, i) in w.store ==> Right(b, c, i, w.store[Part(b, i)].spec)
    ensures var store := Outside(tools, w, l).store;
            && (Part(b, i) in store ==> Part(b, i) in w.store && Right(b, c, i, store[Part(b, i)].spec))
            && (Part(b, i) in w.store && i < 3 ==> Part(b, i) in store)
  {
    hide LeavesForeign, Right, Part;
  }

  lemma OtherLabel(tools: Tools, s: System, l: Label, b: Key, c: string)
    requires Sound(s) && Inv(s, b, c) && b.kind == DirectoryBackup && Permitted(s.world, l, b, c)
    requires l.Step? ==> l.req != b
    ensures Inv(Do(tools, s, l), b, c)
  {
    hide Perform, CallOf, Resume, Right, Outside, LeavesForeign, ShieldedFromAll, NamesApart;
    var s' := Do(tools, s, l);
    forall i: nat | i < 4
      ensures Part(b, i) in s'.world.store ==>
                Part(b, i) in s.world.store && Right(b, c, i, s'.world.store[Part(b, i)].spec)
      ensures Part(b, i) in s.world.store && i < 3 ==> Part(b, i) in s'.world.store
    {
      if Touches(l, Part(b, i)) {
        TouchedPart(tools, s.world, l, b, c, i);
      } else {
        OwnedHeld(tools, s, l, b, Part(b, i));
      }
    }
    ShieldsKept(tools, s, l, Part(b, 1));
    if Touches(l, b) {
      EditAims(tools, s.world, l, b, c);
    } else {
      OwnedHeld(tools, s, l, b, b);
    }
  }

  ghost predicate AllPermitted(tools: Tools, s: System, run: seq<Label>, b: Key, c: string)
    decreases |run|
  {
    run != [] ==> Permitted(s.world, run[0], b, c) && AllPermitted(tools, Do(tools, s, run[0]), run[1..], b, c)
  }

  lemma {:induction false} InvRuns(tools: Tools, s: System, run: seq<Label>, b: Key, c: string)
    requires Sound(s) && Inv(s, b, c) && b.kind == DirectoryBackup && AllPermitted(tools, s, run, b, c)
    ensures Inv(Exec(tools, s, run), b, c)
    decreases |run|
  {
    if run == [] {
    } else {
      SoundKept(tools, s, run[0]);
      if run[0].Step? && run[0].req == b {
        OwnStep(tools, s, run[0], b, c);
      } else {
        OtherLabel(tools, s, run[0], b, c);
      }
      InvRuns(tools, Do(tools, s, run[0]), run[1..], b, c);
    }
  }

  /** The job mounts exactly the backup claim and the clone, the clone is made from the snapshot, and the
      snapshot from the claim to back up; all of them exist. */
  ghost predicate StandsOn(store: Store, job: Key, c: string) {
    && job in store && store[job].spec.JobObject? && store[job].spec.tool == BackupTool
    && var data, backup := Key(Claim, job.namespace, store[job].spec.dataClaim),
                           Key(Claim, job.namespace, store[job].spec.backupClaim);
       && backup == Key(Claim, job.namespace, job.name) && backup in store
       && data in store && store[data].spec.ClaimObject? && store[data].spec.claim.source.Some?
       && store[data].spec.claim.source.value.kind == "VolumeSnapshot"
       && var snap := Key(Snapshot, job.namespace, store[data].spec.claim.source.value.name);
          snap in store && store[snap].spec.SnapshotObject? && store[snap].spec.source == c
  }

  lemma BuiltJob(store: Store, b: Key, c: string)
    requires Built(store, b, c) && JobKey(b) in store
    ensures StandsOn(store, JobKey(b), c)
  {
    assert Right(b, c, 3, store[Part(b, 3)].spec) && UpTo(store, b, 3);
    assert Part(b, 0) in store && Part(b, 1) in store && Part(b, 2) in store;
  }

  /** At every point of every run, a backup job stands on its clone, its snapshot and its backup claim. The
      backup claim may be one that an earlier backup of that name has left. */
  lemma JobStandsOnItsParts(tools: Tools, s: System, run: seq<Label>, b: Key, c: string)
    requires Sound(s) && s.threads == map[] && b.kind == DirectoryBackup && AllPermitted(tools, s, run, b, c)
    requires forall i: nat :: 1 <= i < 4 ==> Part(b, i) !in s.world.store
    requires Part(b, 0) in s.world.store ==> s.world.store[Part(b, 0)].spec.ClaimObject?
    requires b in s.world.store ==> Aimed(s.world.store[b], c)
    ensures var store := Exec(tools, s, run).world.store;
            JobKey(b) in store ==> StandsOn(store, JobKey(b), c)
  {
    hide AllPermitted, Exec, StandsOn;
    InvRuns(tools, s, run, b, c);
    var store := Exec(tools, s, run).world.store;
    if JobKey(b) in store {
      BuiltJob(store, b, c);
    }
  }

  /** A backup reconcile that ends without an error has found its custom resource gone, or has just found or made
      its last object. */
  lemma EndsWell(b: Key, pc: Pc, reply: Reply)
    requires Ready(b.kind, pc) && !pc.Finished? && b.kind == DirectoryBackup && Resume(b, pc, reply).Finished?
    ensures Resume(b, pc, reply).outcome == Outcome(0, false) ==>
              (pc.Start? && reply.Missing?) || (!pc.Start? && pc.stage.BackupJob? && reply.Found?)
    ensures Resume(b, pc, reply).outcome == Outcome(0, true) || Resume(b, pc, reply).outcome == Outcome(0, false)
  {
    hide Scheduled, Synchronised, Fresh, Resolve, Adjusted;
  }

  /** In every run, when a backup reconcile ends without reporting an error, its custom resource was gone, or all
      four objects are in place, each referring to what it should; so every failure on the way is reported. */
  lemma NoErrorMeansBuilt(tools: Tools, s: System, run: seq<Label>, b: Key, c: string, inp: Input)
    requires Sound(s) && Inv(s, b, c) && b.kind == DirectoryBackup && AllPermitted(tools, s, run, b, c)
    ensures var before := Exec(tools, s, run);
            var pc := PcOf(before, b);
            && Ready(b.kind, pc) && !pc.Finished?
            && var a := Perform(before.world, CallOf(b, pc), inp);
               Resume(b, pc, a.reply).Finished? && Resume(b, pc, a.reply).outcome != Outcome(0, true) ==>
                 || (pc.Start? && b !in before.world.store)
                 || (UpTo(a.world.store, b, 4) && Built(a.world.store, b, c))
  {
    hide Exec, Perform, CallOf, Resume, Right, AllPermitted, UpTo, Built;
    InvRuns(tools, s, run, b, c);
    SoundRuns(tools, s, run);
    var before := Exec(tools, s, run);
    var pc := PcOf(before, b);
    assert ThreadOk(before.world, b, pc);
    var a := Perform(before.world, CallOf(b, pc), inp);
    if Resume(b, pc, a.reply).Finished? && Resume(b, pc, a.reply).outcome != Outcome(0, true) {
      EndsWell(b, pc, a.reply);
      if pc.Start? {
        MissedIsGone(before.world, b, inp);
      } else {
        OwnBuilt(before.world, b, c, pc, inp);
        UpsertStored(before.world, b, pc, inp);
        LastPart(before.world, a.world, b, pc, inp);
      }
    }
  }

  lemma MissedIsGone(w: World, b: Key, inp: Input)
    requires Ready(b.kind, Start)
    ensures Perform(w, CallOf(b, Start), inp).reply.Missing? ==> b !in w.store
  {
  }

  /** The earlier parts stay while the last one is found or made. */
  lemma LastPart(w: World, w': World, b: Key, pc: Pc, inp: Input)
    requires ThreadOk(w, b, pc) && b.kind == DirectoryBackup && !pc.Start? && pc.stage.BackupJob?
    requires w' == Perform(w, CallOf(b, pc), inp).world && UpTo(w.store, b, Assured(pc))
    requires Target(b, pc.stage) in w'.store
    ensures UpTo(w'.store, b, 4)
  {
    hide Perform, CallOf;
    forall i: nat | i < 4
      ensures Part(b, i) in w'.store
    {
      if i < 3 {
        StepPreserves(w, b, pc, inp, Part(b, i));
      }
    }
  }
}
