/** What the deletion of a custom resource takes with it. */
module Cascade {
  import opened Naming
  import opened Cluster
  import opened Controllers
  import opened Runs
  import opened Separation

  /** The owner still exists, under the uid it had. */
  predicate Alive(store: Store, namespace: string, ref: OwnerRef) {
    var key := Key(ref.kind, namespace, ref.name);
    key in store && store[key].meta.uid == ref.uid
  }

  /** Garbage collection may delete an object that has owners none of which is alive. */
  predicate Orphan(store: Store, key: Key) {
    && key in store && store[key].meta.owners != []
    && forall i :: 0 <= i < |store[key].meta.owners| ==> !Alive(store, key.namespace, store[key].meta.owners[i])
  }

  /** A sequence of deletions by the garbage collector, in any order, until none is left to do. */
  ghost predicate Collects(store: Store, victims: seq<Key>, end: Store)
    decreases |victims|
  {
    if victims == [] then end == store && forall key :: !Orphan(store, key)
    else Orphan(store, victims[0]) && Collects(store - {victims[0]}, victims[1..], end)
  }

  /** The objects of `gone` are orphans, and nothing else in the store depends on them. */
  ghost predicate Detached(store: Store, gone: set<Key>) {
    && (forall key :: key in gone ==> Orphan(store, key))
    && (forall key :: key in store && key !in gone ==> !Orphan(store - gone, key))
  }

  lemma OrphanStays(store: Store, key: Key, other: Key)
    requires Orphan(store, key) && key != other
    ensures Orphan(store - {other}, key)
  {
  }

  lemma OrphanGrows(store: Store, smaller: set<Key>, larger: set<Key>, key: Key)
    requires smaller <= larger && key !in larger && Orphan(store - smaller, key)
    ensures Orphan(store - larger, key)
  {
  }

  /** Whatever the order, collection deletes exactly the detached objects. */
  lemma {:induction false} CollectsExactly(store: Store, victims: seq<Key>, end: Store, gone: set<Key>)
    requires Collects(store, victims, end) && gone <= store.Keys && Detached(store, gone)
    ensures end == store - gone
    decreases |victims|
  {
    if victims == [] {
      assert gone == {};
      assert store - gone == store;
    } else {
      var v := victims[0];
      assert store - {} == store;
      if v !in gone {
        OrphanGrows(store, {}, gone, v);
        assert false;
      }
      var store', gone' := store - {v}, gone - {v};
      forall key | key in gone'
        ensures Orphan(store', key)
      {
        OrphanStays(store, key, v);
      }
      assert store' - gone' == store - gone;
      CollectsExactly(store', victims[1..], end, gone');
    }
  }

  /** An object without owners is never collected. */
  lemma {:induction false} UnownedSurvives(store: Store, victims: seq<Key>, end: Store, key: Key)
    requires Collects(store, victims, end) && key in store && store[key].meta.owners == []
    ensures key in end && end[key] == store[key]
    decreases |victims|
  {
    if victims == [] {
    } else {
      UnownedSurvives(store - {victims[0]}, victims[1..], end, key);
    }
  }

  /** Once its only owner is gone, an object is collected. */
  lemma {:induction false} OrphanGoes(store: Store, victims: seq<Key>, end: Store, key: Key)
    requires Collects(store, victims, end) && Orphan(store, key)
    ensures key !in end
    decreases |victims|
  {
    if victims == [] {
    } else {
      var rest := store - {victims[0]};
      if key == victims[0] {
        CollectsShrinks(rest, victims[1..], end, key);
      } else {
        OrphanStays(store, key, victims[0]);
        OrphanGoes(rest, victims[1..], end, key);
      }
    }
  }

  lemma {:induction false} CollectsShrinks(store: Store, victims: seq<Key>, end: Store, key: Key)
    requires Collects(store, victims, end) && key !in store
    ensures key !in end
    decreases |victims|
  {
    if victims == [] {
    } else {
      CollectsShrinks(store - {victims[0]}, victims[1..], end, key);
    }
  }

  // ------------------------------------------------------------------------ who owns what, in every run

  predicate SoleOwner(owners: seq<OwnerRef>, req: Key) {
    |owners| == 1 && owners[0].kind == req.kind && owners[0].name == req.name
  }

  /** The snapshot, the clone and the job of a backup. */
  function Temporary(b: Key): set<Key> {
    {Key(Snapshot, b.namespace, Temp(b.name)), Key(Claim, b.namespace, Temp(b.name)), JobKey(b)}
  }

  function BackupClaimKey(b: Key): Key { Key(Claim, b.namespace, b.name) }

  /** Backups own what is temporary but not the backup claim; services own their StatefulSet and Service but
      neither their data claims nor their automatic snapshots. */
  ghost predicate OwnersRight(req: Key, key: Key, owners: seq<OwnerRef>) {
    && (req.kind == DirectoryBackup ==>
          (key in Temporary(req) ==> SoleOwner(owners, req)) && (key == BackupClaimKey(req) ==> owners == []))
    && (req.kind == DirectoryService ==>
          && (IsDataClaim(req, key) || IsAutoSnapshot(req, key) ==> owners == [])
          && (key == Target(req, Set) || key == Target(req, Headless) ==> SoleOwner(owners, req)))
  }

  ghost predicate Inv(s: System, req: Key) {
    forall key :: key in s.world.store ==> OwnersRight(req, key, s.world.store[key].meta.owners)
  }

  /** Other custom resources have names apart, and nobody else gives these objects other owners. */
  ghost predicate Permitted(l: Label, req: Key) {
    && (l.Step? ==> IsCustom(l.req.kind) && (l.req == req || NamesApart(req, l.req)))
    && (l.Edit? ==> OwnersRight(req, l.key, l.obj.meta.owners))
  }

  lemma OwnFresh(req: Key, st: Stage, cr: Object, claim: ClaimSpec)
    requires IsCustom(req.kind) && Fits(req.kind, st, cr) && IsUpsert(st)
    ensures OwnersRight(req, Target(req, st), Fresh(req, st, cr, claim).meta.owners)
  {
    TempInjective(req.name, req.name);
  }

  lemma OwnAdjusted(req: Key, st: Stage, cr: Object, o: Object)
    requires IsCustom(req.kind) && Fits(req.kind, st, cr) && IsUpsert(st) && Typed(TargetKind(st), o)
    requires OwnersRight(req, Target(req, st), o.meta.owners)
    ensures OwnersRight(req, Target(req, st), Adjusted(req, st, cr, o).meta.owners)
  {
    if st.BackupSnapshot? || st.BackupClone? {
      assert UpsertOwner(o.meta.owners, Owner(req, cr, false)) == [Owner(req, cr, false)];
    }
  }

  lemma StrangerOwners(req: Key, key: Key, owners: seq<OwnerRef>)
    requires IsCustom(req.kind) && !Owns(req, key)
    ensures OwnersRight(req, key, owners)
  {
  }

  lemma StepOwners(w: World, req: Key, q: Key, pc: Pc, inp: Input, key: Key)
    requires ThreadOk(w, q, pc) && IsCustom(req.kind) && IsCustom(q.kind) && (q == req || NamesApart(req, q))
    requires key in w.store ==> OwnersRight(req, key, w.store[key].meta.owners)
    ensures var store := Perform(w, CallOf(q, pc), inp).world.store;
            key in store ==> OwnersRight(req, key, store[key].meta.owners)
  {
    hide Perform, CallOf, NamesApart, OwnersRight, Target, Fresh, Adjusted;
    StepEffect(w, q, pc, inp);
    if (pc.Creating? || pc.Updating?) && Target(q, pc.stage) == key {
      if q == req {
        if pc.Creating? {
          OwnFresh(req, pc.stage, pc.cr, ClaimIn(pc.obj));
        } else if key in w.store && w.store[key] == pc.seen {
          OwnAdjusted(req, pc.stage, pc.cr, pc.seen);
        }
      } else {
        TargetIsOwned(q, pc.stage);
        ApartNeverMeet(req, q, key);
        var store := Perform(w, CallOf(q, pc), inp).world.store;
        if key in store {
          StrangerOwners(req, key, store[key].meta.owners);
        }
      }
    }
  }

  lemma OutsideOwners(tools: Tools, w: World, l: Label, req: Key, key: Key)
    requires !l.Step? && !l.Crash? && Permitted(l, req)
    requires key in w.store ==> OwnersRight(req, key, w.store[key].meta.owners)
    ensures var store := Outside(tools, w, l).store;
            key in store ==> OwnersRight(req, key, store[key].meta.owners)
  {
    hide OwnersRight;
    if !Touches(l, key) {
      hide Outside;
      OutsideKeeps(tools, w, l, key);
    }
  }

  lemma InvKept(tools: Tools, s: System, l: Label, req: Key)
    requires Sound(s) && IsCustom(req.kind) && Inv(s, req) && Permitted(l, req)
    ensures Inv(Do(tools, s, l), req)
  {
    hide OwnersRight, Perform, CallOf, Resume, Outside, NamesApart;
    forall key | key in Do(tools, s, l).world.store
      ensures OwnersRight(req, key, Do(tools, s, l).world.store[key].meta.owners)
    {
      if l.Step? {
        assert ThreadOk(s.world, l.req, PcOf(s, l.req));
        StepOwners(s.world, req, l.req, PcOf(s, l.req), l.inp, key);
      } else if !l.Crash? {
        OutsideOwners(tools, s.world, l, req, key);
      }
    }
  }

  ghost predicate AllPermitted(run: seq<Label>, req: Key) {
    forall i :: 0 <= i < |run| ==> Permitted(run[i], req)
  }

  lemma {:induction false} InvRuns(tools: Tools, s: System, run: seq<Label>, req: Key)
    requires Sound(s) && IsCustom(req.kind) && Inv(s, req) && AllPermitted(run, req)
    ensures Inv(Exec(tools, s, run), req)
    decreases |run|
  {
    hide Inv, Permitted, Do;
    if run == [] {
    } else {
      SoundKept(tools, s, run[0]);
      InvKept(tools, s, run[0], req);
      InvRuns(tools, Do(tools, s, run[0]), run[1..], req);
    }
  }

  // --------------------------------------------------------------------------------- deletions

  /** Whatever else has owners has one that is alive and neither the backup nor temporary. */
  ghost predicate OthersHeld(store: Store, b: Key) {
    forall key :: key in store && key !in Temporary(b) && store[key].meta.owners != [] ==>
      exists i :: 0 <= i < |store[key].meta.owners| && HeldBy(store, b, key, store[key].meta.owners[i])
  }

  ghost predicate HeldBy(store: Store, b: Key, key: Key, ref: OwnerRef) {
    var owner := Key(ref.kind, key.namespace, ref.name);
    Alive(store, key.namespace, ref) && owner != b && owner !in Temporary(b)
  }

  /** In every state of every run, deleting a backup and letting the garbage collector work, in whatever order,
      removes exactly its snapshot, its clone and its job: the backup claim stays, and so does the rest. */
  lemma BackupDeletionCascades(tools: Tools, s: System, run: seq<Label>, b: Key, victims: seq<Key>, end: Store)
    requires Sound(s) && b.kind == DirectoryBackup && Inv(s, b) && AllPermitted(run, b)
    requires var store := Exec(tools, s, run).world.store;
             OthersHeld(store, b) && Collects(store - {b}, victims, end)
    ensures var store := Exec(tools, s, run).world.store;
            && end == store - {b} - Temporary(b)
            && (BackupClaimKey(b) in store ==> BackupClaimKey(b) in end)
  {
    InvRuns(tools, s, run, b);
    TempInjective(b.name, b.name);
    CascadeFrom(Exec(tools, s, run).world.store, b, victims, end);
  }

  lemma CascadeFrom(store: Store, b: Key, victims: seq<Key>, end: Store)
    requires b.kind == DirectoryBackup && OthersHeld(store, b) && Collects(store - {b}, victims, end)
    requires forall key :: key in store ==> OwnersRight(b, key, store[key].meta.owners)
    ensures end == store - {b} - Temporary(b)
  {
    hide Collects;
    var left, gone := store - {b}, Temporary(b) * (store - {b}).Keys;
    forall key | key in gone
      ensures Orphan(left, key)
    {
      assert SoleOwner(store[key].meta.owners, b) && key.namespace == b.namespace;
    }
    forall key | key in left && key !in gone
      ensures !Orphan(left - gone, key)
    {
      if left[key].meta.owners != [] {
        var i :| 0 <= i < |store[key].meta.owners| && HeldBy(store, b, key, store[key].meta.owners[i]);
        assert Alive(left - gone, key.namespace, store[key].meta.owners[i]);
      }
    }
    CollectsExactly(left, victims, end, gone);
    assert left - gone == left - Temporary(b);
  }

  /** In every state of every run, deleting a service and letting the garbage collector work removes its
      StatefulSet and its Service, and none of its data claims and automatic snapshots. */
  lemma ServiceDeletionKeepsData(
      tools: Tools, s: System, run: seq<Label>, d: Key, victims: seq<Key>, end: Store, key: Key)
    requires Sound(s) && d.kind == DirectoryService && Inv(s, d) && AllPermitted(run, d)
    requires var store := Exec(tools, s, run).world.store;
             key in store && Collects(store - {d}, victims, end)
    ensures var store := Exec(tools, s, run).world.store;
            && (IsDataClaim(d, key) || IsAutoSnapshot(d, key) ==> key in end && end[key] == store[key])
            && (key == Target(d, Set) || key == Target(d, Headless) ==> key !in end)
  {
    hide IsDataClaim, IsAutoSnapshot;
    InvRuns(tools, s, run, d);
    ServiceCascade(Exec(tools, s, run).world.store, d, victims, end, key);
  }

  lemma ServiceCascade(store: Store, d: Key, victims: seq<Key>, end: Store, key: Key)
    requires d.kind == DirectoryService && key in store && Collects(store - {d}, victims, end)
    requires OwnersRight(d, key, store[key].meta.owners)
    ensures IsDataClaim(d, key) || IsAutoSnapshot(d, key) ==> key in end && end[key] == store[key]
    ensures key == Target(d, Set) || key == Target(d, Headless) ==> key !in end
  {
    hide Collects;
    if IsDataClaim(d, key) || IsAutoSnapshot(d, key) {
      UnownedSurvives(store - {d}, victims, end, key);
    } else if key == Target(d, Set) || key == Target(d, Headless) {
      assert Orphan(store - {d}, key);
      OrphanGoes(store - {d}, victims, end, key);
    }
  }

  // --------------------------------------------------------------- deletions while the operator goes on

  /** Whoever deletes the object is the garbage collector. */
  ghost predicate OnlyCollected(tools: Tools, s: System, run: seq<Label>, key: Key)
    decreases |run|
  {
    run != [] ==>
      && (run[0] == Remove(key) ==> Orphan(s.world.store, key))
      && OnlyCollected(tools, Do(tools, s, run[0]), run[1..], key)
  }

  /** The claims that are kept when `req` is deleted: those of a service, or the one a backup writes to. */
  ghost predicate KeptClaim(req: Key, key: Key) {
    (req.kind == DirectoryService && IsDataClaim(req, key))
        || (req.kind == DirectoryBackup && key == BackupClaimKey(req))
  }

  lemma KeptClaimStays(tools: Tools, s: System, l: Label, req: Key, key: Key)
    requires Sound(s) && Inv(s, req) && KeptClaim(req, key) && key in s.world.store
    requires l == Remove(key) ==> Orphan(s.world.store, key)
    ensures key in Do(tools, s, l).world.store
  {
    hide Perform, CallOf, Resume, JobRan, Provisioned, NamesApart;
    assert OwnersRight(req, key, s.world.store[key].meta.owners);
    if l.Step? {
      assert ThreadOk(s.world, l.req, PcOf(s, l.req));
      StepPreserves(s.world, l.req, PcOf(s, l.req), l.inp, key);
    } else if !l.Crash? && !Touches(l, key) {
      hide Outside;
      OutsideKeeps(tools, s.world, l, key);
    }
  }

  /** Over every run, garbage collection never takes a claim that is to be kept, and neither does the operator. */
  lemma {:induction false} ClaimsOutlive(tools: Tools, s: System, run: seq<Label>, req: Key, key: Key)
    requires Sound(s) && IsCustom(req.kind) && Inv(s, req) && AllPermitted(run, req)
    requires KeptClaim(req, key) && key in s.world.store && OnlyCollected(tools, s, run, key)
    ensures key in Exec(tools, s, run).world.store
    decreases |run|
  {
    hide Do, Sound, Inv, Permitted, KeptClaim, Orphan;
    if run == [] {
    } else {
      SoundKept(tools, s, run[0]);
      InvKept(tools, s, run[0], req);
      KeptClaimStays(tools, s, run[0], req, key);
      ClaimsOutlive(tools, Do(tools, s, run[0]), run[1..], req, key);
    }
  }

  /** The custom resource is deleted, and no reconcile of it is in flight. */
  ghost predicate Gone(s: System, req: Key) {
    req !in s.world.store && req !in s.threads
  }

  lemma GoneDoesNothing(s: System, req: Key, inp: Input)
    requires Gone(s, req)
    ensures Move(s, req, inp) == s
  {
    assert s.threads - {req} == s.threads;
  }

  lemma GoneKept(tools: Tools, s: System, l: Label, req: Key)
    requires Sound(s) && IsCustom(req.kind) && Gone(s, req) && !(l.Edit? && l.key == req)
    ensures Gone(Do(tools, s, l), req)
  {
    hide Perform, CallOf, Resume, Fresh, Adjusted;
    if l.Step? && l.req == req {
      GoneDoesNothing(s, req, l.inp);
    } else if l.Step? {
      assert ThreadOk(s.world, l.req, PcOf(s, l.req));
      StepEffect(s.world, l.req, PcOf(s, l.req), l.inp);
    } else if !l.Crash? && !Touches(l, req) {
      OutsideKeeps(tools, s.world, l, req);
    }
  }

  /** What the deletion of `req` is to remove. */
  ghost function Dependents(req: Key): set<Key> {
    if req.kind == DirectoryBackup then Temporary(req) else {Target(req, Set), Target(req, Headless)}
  }

  lemma DependentsOwned(req: Key, key: Key)
    requires (req.kind == DirectoryBackup || req.kind == DirectoryService) && key in Dependents(req)
    ensures Owns(req, key)
    ensures forall owners :: OwnersRight(req, key, owners) ==> SoleOwner(owners, req)
    ensures key.namespace == req.namespace
  {
    TempInjective(req.name, req.name);
  }

  lemma StaysAway(tools: Tools, s: System, l: Label, req: Key, key: Key)
    requires Sound(s) && (req.kind == DirectoryBackup || req.kind == DirectoryService)
    requires Gone(s, req) && Permitted(l, req) && key in Dependents(req) && key !in s.world.store
    requires !(l.Edit? && l.key == key)
    ensures key !in Do(tools, s, l).world.store
  {
    hide Perform, CallOf, Resume, Fresh, Adjusted, Target, NamesApart, Dependents, Owns;
    DependentsOwned(req, key);
    if l.Step? && l.req == req {
      GoneDoesNothing(s, req, l.inp);
    } else if l.Step? {
      var pc := PcOf(s, l.req);
      assert ThreadOk(s.world, l.req, pc);
      StepEffect(s.world, l.req, pc, l.inp);
      ApartNeverMeet(req, l.req, key);
      if pc.Creating? || pc.Updating? {
        TargetIsOwned(l.req, pc.stage);
      }
    } else if !l.Crash? && !Touches(l, key) {
      OutsideKeeps(tools, s.world, l, key);
    }
  }

  /** Nobody makes the custom resource or its dependents again. */
  ghost predicate NotRemade(run: seq<Label>, req: Key) {
    forall i :: 0 <= i < |run| && run[i].Edit? ==> run[i].key != req && run[i].key !in Dependents(req)
  }

  lemma {:induction false} StayAway(tools: Tools, s: System, run: seq<Label>, req: Key)
    requires Sound(s) && (req.kind == DirectoryBackup || req.kind == DirectoryService)
    requires Gone(s, req) && AllPermitted(run, req) && NotRemade(run, req)
    requires forall key :: key in Dependents(req) ==> key !in s.world.store
    ensures forall key :: key in Dependents(req) ==> key !in Exec(tools, s, run).world.store
    decreases |run|
  {
    hide Do, Sound, Gone, Permitted, Dependents;
    if run == [] {
    } else {
      SoundKept(tools, s, run[0]);
      GoneKept(tools, s, run[0], req);
      forall key | key in Dependents(req)
        ensures key !in Do(tools, s, run[0]).world.store
      {
        StaysAway(tools, s, run[0], req, key);
      }
      StayAway(tools, Do(tools, s, run[0]), run[1..], req);
    }
  }

  lemma NoneLeft(store: Store, req: Key, key: Key)
    requires (req.kind == DirectoryBackup || req.kind == DirectoryService) && key in Dependents(req) && req !in store
    requires key in store ==> OwnersRight(req, key, store[key].meta.owners) && !Orphan(store, key)
    ensures key !in store
  {
    hide OwnersRight, Dependents;
    DependentsOwned(req, key);
  }

  /** Deletion while the operator goes on. Over every run, whatever reconciles were in flight when the backup or
      service was deleted: once it is gone, no reconcile of it is in flight and the garbage collector has
      nothing left to do, none of its dependents is stored (for a backup its snapshot, clone and job; for a
      service its StatefulSet and Service), nor will be over any further run unless somebody makes it again;
      and the claims that are to be kept have been kept all along. */
  lemma CascadeOverRuns(tools: Tools, s: System, run: seq<Label>, rest: seq<Label>, req: Key, claim: Key)
    requires Sound(s) && (req.kind == DirectoryBackup || req.kind == DirectoryService)
    requires Inv(s, req) && AllPermitted(run, req) && AllPermitted(rest, req) && NotRemade(rest, req)
    requires var mid := Exec(tools, s, run);
             Gone(mid, req) && forall key :: key in mid.world.store ==> !Orphan(mid.world.store, key)
    ensures forall key :: key in Dependents(req) ==> key !in Exec(tools, Exec(tools, s, run), rest).world.store
    ensures KeptClaim(req, claim) && claim in s.world.store && OnlyCollected(tools, s, run + rest, claim) ==>
              claim in Exec(tools, Exec(tools, s, run), rest).world.store
  {
    hide Exec, Dependents, OwnersRight, Orphan, Permitted, KeptClaim, OnlyCollected;
    var mid := Exec(tools, s, run);
    SoundRuns(tools, s, run);
    InvRuns(tools, s, run, req);
    forall key | key in Dependents(req)
      ensures key !in mid.world.store
    {
      NoneLeft(mid.world.store, req, key);
    }
    StayAway(tools, mid, rest, req);
    if KeptClaim(req, claim) && claim in s.world.store && OnlyCollected(tools, s, run + rest, claim) {
      ClaimsOutlive(tools, s, run + rest, req, claim);
      ExecAppend(tools, s, run, rest);
    }
  }

  // ----------------------------------------------------------- automatic snapshots outlive their service

  /** The snapshot is there, and no other service has it on a list to prune or finds it by its labels. */
  ghost predicate OnlyOurs(s: System, d: Key, key: Key) {
    && key in s.world.store
    && forall y: Key :: y.kind == DirectoryService && y.namespace == key.namespace && y != d ==> Shielded(s, y, key)
  }

  /** Nobody gives the snapshot the labels of another service. */
  ghost predicate LeavesOurs(l: Label, d: Key, key: Key) {
    forall y: Key :: y.kind == DirectoryService && y.namespace == key.namespace && y != d ==>
        LeavesUnlabelled(l, y, key)
  }

  lemma SnapshotStays(tools: Tools, s: System, l: Label, d: Key, key: Key)
    requires Sound(s) && d.kind == DirectoryService && Inv(s, d) && Gone(s, d)
    requires IsAutoSnapshot(d, key) && OnlyOurs(s, d, key) && LeavesOurs(l, d, key)
    requires l == Remove(key) ==> Orphan(s.world.store, key)
    ensures OnlyOurs(Do(tools, s, l), d, key)
  {
    hide Perform, Resume, CallOf, Selector, Matches, IsAutoSnapshot, IsDataClaim, JobRan, Provisioned;
    assert OwnersRight(d, key, s.world.store[key].meta.owners);
    assert key.kind == Snapshot by { AutoIsSnapshot(d, key); }
    if l.Step? && l.req == d {
      GoneDoesNothing(s, d, l.inp);
    } else if l.Step? {
      hide Sound, Shielded, Move;
      SparedStep(s, l.req, l.inp, key);
    } else if !l.Crash? && !Touches(l, key) {
      hide Outside;
      OutsideKeeps(tools, s.world, l, key);
    }
  }

  lemma AutoIsSnapshot(d: Key, key: Key)
    requires IsAutoSnapshot(d, key)
    ensures key.kind == Snapshot
  {
  }

  /** Over every run after a service is gone, in which nobody makes it again, its automatic snapshots stay:
      neither the garbage collector nor the reconciles of others take them. */
  lemma {:induction false} SnapshotsOutlive(tools: Tools, s: System, run: seq<Label>, d: Key, key: Key)
    requires Sound(s) && d.kind == DirectoryService && Inv(s, d) && Gone(s, d) && AllPermitted(run, d)
    requires IsAutoSnapshot(d, key) && OnlyOurs(s, d, key) && OnlyCollected(tools, s, run, key)
    requires forall i :: 0 <= i < |run| ==> LeavesOurs(run[i], d, key) && !(run[i].Edit? && run[i].key == d)
    ensures key in Exec(tools, s, run).world.store
    decreases |run|
  {
    hide Do, Sound, Inv, Permitted, Gone, LeavesOurs, IsAutoSnapshot, Orphan;
    if run == [] {
    } else {
      SoundKept(tools, s, run[0]);
      InvKept(tools, s, run[0], d);
      SnapshotStays(tools, s, run[0], d, key);
      GoneKept(tools, s, run[0], d);
      SnapshotsOutlive(tools, Do(tools, s, run[0]), run[1..], d, key);
    }
  }
}
