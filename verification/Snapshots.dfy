/** What an undisturbed reconcile does about snapshots when one is due, and the first time
    (controllers/snapshots.go). */
module Snapshots {
  import opened Text
  import opened Naming
  import opened Cluster
  import opened Listing
  import opened Controllers
  import opened Schedule
  import opened Pruning
  import opened Convergence

  /** Writing the time of a snapshot, when the custom resource in memory is the stored one. */
  lemma TimeWritten(w: World, d: Key, cr: Object, now: nat, inp: Input)
    requires d.kind == DirectoryService && d in w.store && w.store[d] == cr && Typed(DirectoryService, cr)
    requires inp.fate == Success && inp.tag !in w.tags
    ensures var a := Perform(w, ReplaceStatus(d, cr.(status := ServiceStatus(now))), inp);
            && a.reply.Found? && Typed(DirectoryService, a.reply.obj) && ChangedAt(w, a.world, d)
            && d in a.world.store && a.reply.obj == a.world.store[d]
            && a.world.store[d].status == ServiceStatus(now) && a.world.store[d].spec == cr.spec
            && a.world.store[d].meta == cr.meta.(version := a.world.store[d].meta.version)
            && a.world.tags <= w.tags + {inp.tag}
  {
  }

  /** The first enabled reconcile takes no snapshot; it starts the clock. */
  lemma FirstTimeOnlyRecords(w: World, d: Key, cr: Object, inputs: seq<Input>)
    requires d.kind == DirectoryService && d in w.store && w.store[d] == cr && Typed(DirectoryService, cr)
    requires cr.status.lastSnapshot == 0 && Good(w, inputs) && |inputs| == 2
    ensures var stop := Drive(w, d, At(SnapClock, cr), inputs);
            && d in stop.world.store && stop.pc == At(Connect, stop.world.store[d])
            && stop.world.store[d].status == ServiceStatus(w.clock) && stop.world.store[d].spec == cr.spec
            && stop.world.store[d].meta == cr.meta.(version := stop.world.store[d].meta.version)
            && ChangedAt(w, stop.world, d)
  {
    hide Perform, CallOf, Resume, ChangedAt;
    FirstTurn(d, cr, w.clock);
    NowAnswers(w, inputs[0]);
    TimeWritten(w, d, cr, w.clock, inputs[1]);
    SavedTurn(d, cr, w.clock, Perform(w, ReplaceStatus(d, cr.(status := ServiceStatus(w.clock))), inputs[1]).reply);
    DriveTwo(w, d, At(SnapClock, cr), inputs);
    assert inputs[2..] == [];
  }

  /** The calls of a first enabled reconcile, and where they lead. */
  lemma FirstTurn(d: Key, cr: Object, now: nat)
    requires d.kind == DirectoryService && Typed(DirectoryService, cr) && cr.status.lastSnapshot == 0
    ensures CallOf(d, At(SnapClock, cr)) == Now && Resume(d, At(SnapClock, cr), Time(now)) == At(SnapFirst(now), cr)
    ensures CallOf(d, At(SnapFirst(now), cr)) == ReplaceStatus(d, cr.(status := ServiceStatus(now)))
  {
    hide Fresh, Resolve, Adjusted;
  }

  lemma SavedTurn(d: Key, cr: Object, now: nat, reply: Reply)
    requires d.kind == DirectoryService && Typed(DirectoryService, cr)
    requires reply.Found? && Typed(DirectoryService, reply.obj)
    ensures Resume(d, At(SnapFirst(now), cr), reply) == At(Connect, reply.obj)
  {
    hide Fresh, Resolve, Adjusted;
  }

  lemma NowAnswers(w: World, inp: Input)
    ensures Perform(w, Now, inp) == Answer(w, Time(w.clock))
  {
  }

  lemma CreatePerformed(w: World, key: Key, o: Object, inp: Input)
    requires key !in w.store && inp.fate == Success && inp.tag !in w.tags
    ensures Perform(w, Create(key, o), inp) == Answer(Written(w, key, Stamped(o, inp.tag, w.clock), inp.tag),
                                                      Found(Stamped(o, inp.tag, w.clock)))
    ensures Perform(w, Get(key), inp) == Answer(w, Missing)
  {
  }

  lemma DueOpens(w: World, d: Key, cr: Object, inputs: seq<Input>)
    requires d.kind == DirectoryService && Typed(DirectoryService, cr) && Takes(cr, w.clock) && Good(w, inputs)
    requires |inputs| == 4
    requires Target(d, SnapCreate(w.clock)) !in w.store
    ensures var st := SnapCreate(w.clock);
            Drive(w, d, At(SnapClock, cr), inputs)
            == Drive(w, d, Creating(st, cr, Fresh(d, st, cr, cr.spec.pod.claim)), inputs[2..])
  {
    hide Perform, Resume, CallOf, Resolve, Fresh, Drive, Takes;
    var pc, st := At(SnapClock, cr), SnapCreate(w.clock);
    DueTurn(d, cr, w.clock);
    NowAnswers(w, inputs[0]);
    DriveTwo(w, d, pc, inputs);
    CreatePerformed(w, Target(d, st), cr, inputs[1]);
  }

  /** The first two calls of a reconcile that finds a snapshot due, and where they lead. */
  lemma DueTurn(d: Key, cr: Object, now: nat)
    requires d.kind == DirectoryService && Typed(DirectoryService, cr) && Takes(cr, now)
    ensures var pc, next := At(SnapClock, cr), At(SnapCreate(now), cr);
            && CallOf(d, pc) == Now && Resume(d, pc, Time(now)) == next
            && CallOf(d, next) == Get(Target(d, SnapCreate(now)))
            && Resume(d, next, Missing)
                 == Creating(SnapCreate(now), cr, Fresh(d, SnapCreate(now), cr, cr.spec.pod.claim))
  {
    hide Looked, Synchronised, Resolve, Fresh;
  }

  lemma DueCloses(w: World, d: Key, cr: Object, o: Object, inputs: seq<Input>)
    requires d.kind == DirectoryService && d in w.store && w.store[d] == cr && Typed(DirectoryService, cr)
    requires Good(w, inputs) && |inputs| == 2 && Target(d, SnapCreate(w.clock)) !in w.store
    ensures var w1 := Written(w, Target(d, SnapCreate(w.clock)), Stamped(o, inputs[0].tag, w.clock), inputs[0].tag);
            var stop := Drive(w, d, Creating(SnapCreate(w.clock), cr, o), inputs);
            && ChangedAt(w1, stop.world, d)
            && d in stop.world.store && stop.pc == At(SnapList, stop.world.store[d])
            && stop.world.store[d].status == ServiceStatus(w.clock) && stop.world.store[d].spec == cr.spec
            && stop.world.store[d].meta == cr.meta.(version := stop.world.store[d].meta.version)
            && stop.world.tags <= w.tags + {inputs[0].tag, inputs[1].tag}
  {
    hide Perform, Looked, Synchronised, Resolve, Fresh, ChangedAt;
    var st, key := SnapCreate(w.clock), Target(d, SnapCreate(w.clock));
    var w1 := Written(w, key, Stamped(o, inputs[0].tag, w.clock), inputs[0].tag);
    CreatePerformed(w, key, o, inputs[0]);
    TimeWritten(w1, d, cr, w.clock, inputs[1]);
    DriveTwo(w, d, Creating(st, cr, o), inputs);
    assert inputs[2..] == [];
  }

  /** A reconcile that finds a snapshot due creates it, of the instance's claim, under labels by which the
      service finds it again, and records the time, before it goes on to prune. */
  lemma DueSnapshotIsTaken(w: World, d: Key, cr: Object, inputs: seq<Input>)
    requires d.kind == DirectoryService && d in w.store && w.store[d] == cr && Typed(DirectoryService, cr)
    requires Takes(cr, w.clock) && Good(w, inputs) && |inputs| == 4
    requires Key(Snapshot, d.namespace, AutoSnapshot(d.name, w.clock)) !in w.store
    ensures var stop := Drive(w, d, At(SnapClock, cr), inputs);
            var key := Key(Snapshot, d.namespace, AutoSnapshot(d.name, w.clock));
            && d in stop.world.store && stop.pc == At(SnapList, stop.world.store[d])
            && stop.world.store[d].status == ServiceStatus(w.clock) && stop.world.store[d].spec == cr.spec
            && stop.world.store[d].meta == cr.meta.(version := stop.world.store[d].meta.version)
            && stop.world.tags <= w.tags + {inputs[2].tag, inputs[3].tag}
            && Selected(stop.world.store, d.namespace, Selector(d), key.name)
            && stop.world.store[key].meta.labels == Selector(d)
            && stop.world.store[key].meta.annotations
                 == map["directory.forgerock.io/lastSnapshotTime" := FormatInt(w.clock)]
            && stop.world.store[key].meta.created == w.clock && stop.world.store[key].meta.owners == []
            && stop.world.store[key].spec
                 == SnapshotObject(cr.spec.pod.snapshotClass, DataClaim(d.name, cr.spec.schedule.instance))
            && (forall k :: k != d && k != key ==>
                  (k in stop.world.store <==> k in w.store) && (k in w.store ==> stop.world.store[k] == w.store[k]))
  {
    hide Drive, Takes, Fresh, Matches, Selector;
    var key, o := Target(d, SnapCreate(w.clock)), Fresh(d, SnapCreate(w.clock), cr, cr.spec.pod.claim);
    GoodTail(w, w, inputs, 2);
    DueOpens(w, d, cr, inputs);
    DueCloses(w, d, cr, o, inputs[2..]);
    SnapshotAsDrafted(d, cr, w.clock);
  }

  lemma SnapshotAsDrafted(d: Key, cr: Object, now: nat)
    requires d.kind == DirectoryService && Typed(DirectoryService, cr)
    ensures var o := Fresh(d, SnapCreate(now), cr, cr.spec.pod.claim);
            && o.meta.annotations == map["directory.forgerock.io/lastSnapshotTime" := FormatInt(now)]
            && o.meta.labels == Selector(d) && Matches(Selector(d), o.meta.labels) && o.meta.owners == []
            && o.spec == SnapshotObject(cr.spec.pod.snapshotClass, DataClaim(d.name, cr.spec.schedule.instance))
  {
  }
}
