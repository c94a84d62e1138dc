/** What one undisturbed reconcile of a service brings about, from its first call to its last, said in the terms of
    the custom resource alone. */
module ServiceOutcomes {
  import opened Text
  import opened Cluster
  import opened Listing
  import opened Controllers
  import opened Pruning
  import opened Convergence
  import opened Seeding
  import opened ServiceConvergence
  import opened Snapshots
  import opened Outcomes
  import Schedule
  import Passwords
  import Throttle

  // ------------------------------------------------------------------------------------ the objects

  function SetNamed(d: Key): Key { Key(StatefulSet, d.namespace, d.name) }
  function ServiceNamed(d: Key): Key { Key(Service, d.namespace, d.name) }

  function ServiceOwner(d: Key, cr: Object): OwnerRef { OwnerRef(DirectoryService, d.name, cr.meta.uid, true) }

  /** A claim that was missing is there, seeded as the template says. */
  ghost predicate NewClaim(w: World, w': World, d: Key, cr: Object, i: nat, right: bool)
    requires Typed(DirectoryService, cr)
  {
    var key := ClaimOf(d, i);
    key !in w.store ==>
      && key in w'.store && w'.store[key].spec.ClaimObject? && w'.store[key].status == Plain
      && Seeded(w.store, d, cr.spec.pod.claim, w'.store[key].spec.claim, right)
      && w'.store[key].meta.labels == OperatorLabels(d.name, "DirectoryService")
      && w'.store[key].meta.annotations == VOLUME_GID && w'.store[key].meta.owners == []
      && w'.store[key].meta.created == w.clock
  }

  /** A StatefulSet that was missing is there as the custom resource describes it; user labels override the
      operator's own. */
  ghost predicate NewSet(w: World, w': World, d: Key, cr: Object, right: bool)
    requires Typed(DirectoryService, cr)
  {
    var key, pod := SetNamed(d), cr.spec.pod;
    key !in w.store ==>
      && key in w'.store && w'.store[key].spec.SetObject? && w'.store[key].status == Plain
      && Seeded(w.store, d, pod.claim, w'.store[key].spec.template, right)
      && w'.store[key].spec
         == SetObject(cr.spec.replicas, pod.image, pod.image, d.name, "data", w'.store[key].spec.template, pod.rest)
      && w'.store[key].meta.labels == OperatorLabels(d.name, "DirectoryService") + cr.meta.labels
      && w'.store[key].meta.annotations == cr.meta.annotations
      && w'.store[key].meta.owners == [ServiceOwner(d, cr)] && w'.store[key].meta.created == w.clock
  }

  /** One that was there is scaled, and nothing else about it is changed. */
  ghost predicate ScaledSet(w: World, w': World, d: Key, cr: Object)
    requires Typed(DirectoryService, cr)
  {
    var key, image := SetNamed(d), cr.spec.pod.image;
    key in w.store ==>
      && key in w'.store && w.store[key].spec.SetObject? && w'.store[key].status == w.store[key].status
      && w'.store[key].spec == w.store[key].spec.(replicas := cr.spec.replicas, dsImage := image, initImage := image)
      && w'.store[key].meta == w.store[key].meta.(version := w'.store[key].meta.version)
  }

  /** The claims of all ordinals, the StatefulSet and the Service; nothing else has changed. */
  ghost predicate ServiceObjects(w: World, w': World, d: Key, cr: Object, right: bool)
    requires Typed(DirectoryService, cr)
  {
    && (forall i: nat :: i < cr.spec.replicas ==>
          ClaimOf(d, i) in w'.store && NewClaim(w, w', d, cr, i, right) && IsOld(w, w', ClaimOf(d, i)))
    && SetNamed(d) in w'.store && NewSet(w, w', d, cr, right) && ScaledSet(w, w', d, cr)
    && ServiceNamed(d) in w'.store && IsOld(w, w', ServiceNamed(d))
    && IsNew(w, w', ServiceNamed(d), HeadlessService(d.name), OperatorLabels(d.name, "DirectoryService"), map[],
             [ServiceOwner(d, cr)], Plain)
    && w' == w.(store := w'.store, tags := w'.tags) && OnlyObjects(w, w', d, cr.spec.replicas)
  }

  lemma ClaimAsDescribed(w: World, w': World, d: Key, cr: Object, i: nat, right: bool)
    requires d.kind == DirectoryService && Typed(DirectoryService, cr) && WellTyped(w)
    requires PartMade(w, w', d, ServiceClaim(i), cr, right)
    ensures ClaimOf(d, i) in w'.store && NewClaim(w, w', d, cr, i, right) && IsOld(w, w', ClaimOf(d, i))
  {
    hide Seeded, WellTyped;
    assert Target(d, ServiceClaim(i)) == ClaimOf(d, i);
    if ClaimOf(d, i) in w.store {
      StoredTyped(w, ClaimOf(d, i));
    }
  }

  lemma SetAsDescribed(w: World, w': World, d: Key, cr: Object, right: bool)
    requires d.kind == DirectoryService && Typed(DirectoryService, cr) && WellTyped(w)
    requires PartMade(w, w', d, Set, cr, right)
    ensures SetNamed(d) in w'.store && NewSet(w, w', d, cr, right) && ScaledSet(w, w', d, cr)
  {
    hide Seeded, WellTyped;
    assert Target(d, Set) == SetNamed(d);
    if SetNamed(d) in w.store {
      StoredTyped(w, SetNamed(d));
    }
  }

  lemma ServiceAsDescribed(w: World, w': World, d: Key, cr: Object, right: bool)
    requires d.kind == DirectoryService && Typed(DirectoryService, cr) && WellTyped(w)
    requires PartMade(w, w', d, Headless, cr, right)
    ensures ServiceNamed(d) in w'.store && IsOld(w, w', ServiceNamed(d))
    ensures IsNew(w, w', ServiceNamed(d), HeadlessService(d.name), OperatorLabels(d.name, "DirectoryService"), map[],
                  [ServiceOwner(d, cr)], Plain)
  {
    hide Seeded, WellTyped;
    assert Target(d, Headless) == ServiceNamed(d);
    if ServiceNamed(d) in w.store {
      StoredTyped(w, ServiceNamed(d));
    }
  }

  lemma ObjectsAsDescribed(w: World, w': World, d: Key, cr: Object, right: bool)
    requires d.kind == DirectoryService && Typed(DirectoryService, cr) && WellTyped(w)
    requires ObjectsMade(w, w', d, cr, right)
    ensures ServiceObjects(w, w', d, cr, right)
  {
    hide PartMade, NewClaim, NewSet, ScaledSet, IsNew, IsOld, WellTyped, OnlyObjects;
    forall i: nat | i < cr.spec.replicas
      ensures ClaimOf(d, i) in w'.store && NewClaim(w, w', d, cr, i, right) && IsOld(w, w', ClaimOf(d, i))
    {
      ClaimAsDescribed(w, w', d, cr, i, right);
    }
    SetAsDescribed(w, w', d, cr, right);
    ServiceAsDescribed(w, w', d, cr, right);
  }

  /** One undisturbed reconcile of a service whose calls succeed, up to its snapshots: each ordinal has its claim, the
      StatefulSet is there and scaled, the Service is there, whichever was missing as the custom resource describes it,
      and everything else is as it was. The reconcile goes on to the snapshots if these are enabled, otherwise
      straight to the directory. */
  lemma ServiceOutcome(w: World, d: Key, cr: Object, inputs: seq<Input>) returns (w': World, rest: seq<Input>)
    requires d.kind == DirectoryService && Typed(DirectoryService, cr) && WellTyped(w) && d in w.store
    requires w.store[d] == cr
    requires Good(w, inputs) && |inputs| >= 3 * Outstanding(cr, 0) + 9
    ensures Drive(w, d, Start, inputs)
            == Drive(w', d, At(if cr.spec.schedule.enabled then SnapClock else Connect, cr), rest)
    ensures Good(w', rest) && |rest| >= |inputs| - 3 * Outstanding(cr, 0) - 9
    ensures d in w'.store && w'.store[d] == cr && ServiceObjects(w, w', d, cr, ListsRight(w.store, d, inputs))
  {
    hide Drive, Good, WellTyped, ObjectsFixed, ObjectsMade, ServiceObjects, ListsRight;
    w', rest := Objects(w, d, cr, inputs);
    ObjectsAsDescribed(w, w', d, cr, ListsRight(w.store, d, inputs));
  }

  // ---------------------------------------------------------------------------------- the snapshots

  function TimedSnapshot(d: Key, now: nat): Key { Key(Snapshot, d.namespace, d.name + "-" + Decimal(now)) }

  /** The custom resource differs in the recorded time alone. */
  predicate TimeRecorded(cr: Object, cr': Object, now: nat)
  {
    && cr'.spec == cr.spec && cr'.status == ServiceStatus(now)
    && cr'.meta == cr.meta.(version := cr'.meta.version)
  }

  /** The snapshot is there, of the claim of the configured instance, under labels by which the service finds it. */
  ghost predicate SnapshotTaken(w: World, d: Key, cr: Object, now: nat)
    requires Typed(DirectoryService, cr)
  {
    var key, claim := TimedSnapshot(d, now), "data-" + d.name + "-" + FormatInt(cr.spec.schedule.instance);
    && key in w.store && w.store[key].spec == SnapshotObject(cr.spec.pod.snapshotClass, claim)
    && w.store[key].meta.created == now && w.store[key].meta.owners == []
    && w.store[key].meta.labels == OperatorLabels(d.name, "DirectoryService")
    && w.store[key].meta.annotations == map["directory.forgerock.io/lastSnapshotTime" := FormatInt(now)]
  }

  /** A snapshot is due: enabled, with a time recorded, and the period has passed since. */
  predicate Due(cr: Object, now: nat)
    requires Typed(DirectoryService, cr)
  {
    && cr.spec.schedule.enabled && cr.status.lastSnapshot != 0
    && now >= cr.status.lastSnapshot + 60 * cr.spec.schedule.periodMinutes
  }

  lemma DueIsTaken(cr: Object, now: nat)
    requires Typed(DirectoryService, cr) && 1 <= cr.spec.schedule.periodMinutes <= 35791394
    ensures Due(cr, now) ==> Schedule.Takes(cr, now)
    ensures !Due(cr, now) && cr.spec.schedule.enabled ==> !Schedule.Takes(cr, now)
  {
    Schedule.DueIffPeriodOver(cr, now);
  }

  lemma GoodParts(w: World, w': World, inputs: seq<Input>, n: nat)
    requires Good(w, inputs) && n <= |inputs|
    requires w'.tags <= w.tags + set i | 0 <= i < n :: inputs[i].tag
    ensures Good(w, inputs[..n]) && Good(w', inputs[n..]) && inputs[..n] + inputs[n..] == inputs
  {
    GoodTail(w, w', inputs, n);
    GoodFront(w, inputs, n);
  }

  /** The reconcile goes on from `pc` to `pc'`. */
  ghost predicate Leads(w: World, d: Key, pc: Pc, inputs: seq<Input>, w': World, pc': Pc, rest: seq<Input>) {
    Ready(d.kind, pc) && Ready(d.kind, pc') && Drive(w, d, pc, inputs) == Drive(w', d, pc', rest)
  }

  /** From the clock to the prune, when a snapshot is due. */
  lemma SnapshotDue(w: World, d: Key, cr: Object, inputs: seq<Input>) returns (w': World, cr': Object, rest: seq<Input>)
    requires d.kind == DirectoryService && Typed(DirectoryService, cr) && d in w.store && w.store[d] == cr
    requires Good(w, inputs) && |inputs| >= 4 && Due(cr, w.clock) && 1 <= cr.spec.schedule.periodMinutes <= 35791394
    requires TimedSnapshot(d, w.clock) !in w.store
    ensures Leads(w, d, At(SnapClock, cr), inputs, w', At(SnapList, cr'), rest)
    ensures Good(w', rest) && |rest| >= |inputs| - 4 && d in w'.store && w'.store[d] == cr'
    ensures SnapshotTaken(w', d, cr, w.clock) && TimeRecorded(cr, cr', w.clock)
    ensures forall k :: k != d && k != TimedSnapshot(d, w.clock) ==>
              (k in w'.store <==> k in w.store) && (k in w.store ==> w'.store[k] == w.store[k])
  {
    hide Drive, Good, Schedule.Takes;
    DueIsTaken(cr, w.clock);
    var a, b := inputs[..4], inputs[4..];
    assert Good(w, a) by { GoodFront(w, inputs, 4); }
    DueSnapshotIsTaken(w, d, cr, a);
    var stop := Drive(w, d, At(SnapClock, cr), a);
    GoodParts(w, stop.world, inputs, 4);
    DriveAppend(w, d, At(SnapClock, cr), a, b);
    w', cr', rest := stop.world, stop.world.store[d], b;
    assert Selector(d) == OperatorLabels(d.name, "DirectoryService");
  }

  /** One undisturbed reconcile of a service for which a snapshot is due, from its start to its prune: its objects are
      brought about as ever, the snapshot is taken and its time recorded. */
  lemma DueOutcome(w: World, d: Key, cr: Object, inputs: seq<Input>) 
      returns (w1: World, w': World, cr': Object, rest: seq<Input>)
    requires d.kind == DirectoryService && Typed(DirectoryService, cr) && WellTyped(w) && d in w.store
    requires w.store[d] == cr
    requires Good(w, inputs) && |inputs| >= 3 * Outstanding(cr, 0) + 13
    requires Due(cr, w.clock) && 1 <= cr.spec.schedule.periodMinutes <= 35791394
    requires TimedSnapshot(d, w.clock) !in w.store
    ensures ServiceObjects(w, w1, d, cr, ListsRight(w.store, d, inputs))
    ensures Leads(w, d, Start, inputs, w', At(SnapList, cr'), rest)
    ensures Good(w', rest) && |rest| >= |inputs| - 3 * Outstanding(cr, 0) - 13 && d in w'.store && w'.store[d] == cr'
    ensures SnapshotTaken(w', d, cr, w.clock) && TimeRecorded(cr, cr', w.clock)
    ensures forall k :: k != d && k != TimedSnapshot(d, w.clock) ==>
              (k in w'.store <==> k in w1.store) && (k in w1.store ==> w'.store[k] == w1.store[k])
  {
    hide Drive, Good, WellTyped, ServiceObjects, SnapshotTaken, TimeRecorded, ListsRight;
    var in1;
    w1, in1 := ServiceOutcome(w, d, cr, inputs);
    NothingElse(w, w1, d, cr, ListsRight(w.store, d, inputs));
    w', cr', rest := SnapshotDue(w1, d, cr, in1);
  }

  lemma NothingElse(w: World, w': World, d: Key, cr: Object, right: bool)
    requires Typed(DirectoryService, cr) && ServiceObjects(w, w', d, cr, right)
    ensures w'.clock == w.clock && w'.passwords == w.passwords
    ensures forall k: Key :: k.kind == Snapshot || k.kind == Secret ==>
              (k in w'.store <==> k in w.store) && (k in w.store ==> w'.store[k] == w.store[k])
  {
    hide NewClaim, NewSet, ScaledSet, IsNew, IsOld, OnlyObjects, ClaimOf;
    OthersSpared(w, w', d, cr.spec.replicas);
  }

  lemma OthersSpared(w: World, w': World, d: Key, n: int)
    requires OnlyObjects(w, w', d, n)
    ensures forall k: Key :: k.kind == Snapshot || k.kind == Secret ==>
              (k in w'.store <==> k in w.store) && (k in w.store ==> w'.store[k] == w.store[k])
  {
    forall k: Key | k.kind == Snapshot || k.kind == Secret
      ensures (k in w'.store <==> k in w.store) && (k in w.store ==> w'.store[k] == w.store[k])
    {
      assert !OfOrdinal(d, n, k);
    }
  }

  /** From the listing that follows to the end of the prune, if no deletion is refused: the youngest `retained` of the
      snapshots with the labels of the service are left. */
  lemma PruneOutcome(w: World, d: Key, cr: Object, inputs: seq<Input>)
    requires d.kind == DirectoryService && Typed(DirectoryService, cr) && cr.spec.schedule.retained >= 0
    requires inputs != [] && inputs[0].fate == Success
    requires IsListing(w.store, d.namespace, Selector(d), inputs[0].listing)
    requires |inputs| == 1 + Surplus(cr, |inputs[0].listing|)
    requires forall i :: 1 <= i < |inputs| ==> !inputs[i].fate.Refused?
    ensures |SortByCreation(inputs[0].listing)| == |inputs[0].listing|
    ensures var stop, items := Drive(w, d, At(SnapList, cr), inputs), SortByCreation(inputs[0].listing);
            && stop.pc == At(Connect, cr)
            && IsListing(stop.world.store, d.namespace, Selector(d), items[|inputs| - 1..])
  {
    hide Drive, Selector, IsListing, SortByCreation;
    var raw, deletions := inputs[0].listing, inputs[1..];
    assert forall i :: 0 <= i < |deletions| ==> deletions[i] == inputs[i + 1];
    DriveOne(w, d, At(SnapList, cr), inputs);
    ListLeads(w, d, cr, inputs[0]);
    PruneLeaves(w, d, cr, raw, deletions);
    CleanPrune(w, d, cr, raw, deletions);
  }

  lemma ListLeads(w: World, d: Key, cr: Object, inp: Input)
    requires d.kind == DirectoryService && Typed(DirectoryService, cr)
    requires inp.fate == Success && IsListing(w.store, d.namespace, Selector(d), inp.listing)
    ensures var a := Perform(w, CallOf(d, At(SnapList, cr)), inp);
            a.world == w && Resume(d, At(SnapList, cr), a.reply) == Scheduled(SnapList, cr, Listed(inp.listing))
  {
    hide Selector, Scheduled, SortByCreation;
    ListAnswers(w, d, inp);
    assert CallOf(d, At(SnapList, cr)) == List(d.namespace, Selector(d));
  }

  /** One undisturbed reconcile of a service for which no snapshot is due, from its start to the directory: its
      objects are brought about as ever; at the first enabled reconcile the time is recorded; no snapshot is taken
      or deleted. */
  lemma WaitOutcome(w: World, d: Key, cr: Object, inputs: seq<Input>)
      returns (w1: World, w': World, cr': Object, rest: seq<Input>)
    requires d.kind == DirectoryService && Typed(DirectoryService, cr) && WellTyped(w) && d in w.store
    requires w.store[d] == cr
    requires Good(w, inputs) && |inputs| >= 3 * Outstanding(cr, 0) + 11
    requires cr.spec.schedule.enabled ==> !Due(cr, w.clock) && 1 <= cr.spec.schedule.periodMinutes <= 35791394
    ensures Leads(w, d, Start, inputs, w', At(Connect, cr'), rest)
    ensures d in w1.store && w1.store[d] == cr && ServiceObjects(w, w1, d, cr, ListsRight(w.store, d, inputs))
    ensures Good(w', rest) && |rest| >= |inputs| - 3 * Outstanding(cr, 0) - 11 && d in w'.store && w'.store[d] == cr'
    ensures if cr.spec.schedule.enabled && cr.status.lastSnapshot == 0 then TimeRecorded(cr, cr', w.clock) else w' == w1
    ensures ChangedAt(w1, w', d)
  {
    hide Drive, Good, WellTyped, ServiceObjects, ListsRight, ChangedAt;
    var in1;
    w1, in1 := ServiceOutcome(w, d, cr, inputs);
    NothingElse(w, w1, d, cr, ListsRight(w.store, d, inputs));
    assert NotDue(w1, cr) by {
      if cr.spec.schedule.enabled {
        assert Int32(cr.spec.schedule.periodMinutes * 60) == 60 * cr.spec.schedule.periodMinutes;
      }
    }
    w', rest := SnapshotTime(w1, d, cr, in1);
    cr' := w'.store[d];
  }

  // ---------------------------------------------------------------------------------- the passwords

  /** A pass whose calls succeed is part of the reconcile, which goes on where the pass ends. */
  lemma {:induction false} PassDrives(w: World, d: Key, cr: Object, now: nat, pc: Pc,
      inputs: seq<Input>) returns (rest: seq<Input>)
    requires d.kind == DirectoryService && Typed(DirectoryService, cr) && Ready(d.kind, pc)
    requires Passwords.Provided(w, d, cr)
    requires Passwords.OnCourse(cr, now, pc) && Passwords.Served(w, d, pc, inputs)
    requires |inputs| >= Passwords.CallsLeft(pc)
    ensures var stop := Passwords.Pass(w, d, pc, inputs);
            Ready(d.kind, stop.pc) && Drive(w, d, pc, inputs) == Drive(stop.world, d, stop.pc, rest)
    ensures IsSuffix(rest, inputs) && |rest| >= |inputs| - Passwords.CallsLeft(pc)
    decreases |inputs|
  {
    hide Perform, CallOf, Resume, Passwords.Provided, Passwords.OnCourse, Passwords.InLoopOf, FormatInt;
    rest := inputs;
    if !Passwords.InLoop(pc) {
    } else {
      assert Passwords.InLoopOf(cr, now, pc) && Passwords.CallsLeft(pc) > 0 by { StillInLoop(cr, now, pc); }
      Passwords.ServedStep(w, d, cr, now, pc, inputs[0]);
      Passwords.StaysProvided(w, d, cr, now, pc, inputs[0]);
      var a := Perform(w, CallOf(d, pc), inputs[0]);
      rest := PassDrives(a.world, d, cr, now, Resume(d, pc, a.reply), inputs[1..]);
      assert rest == inputs[|inputs| - |rest|..];
    }
  }

  lemma StillInLoop(cr: Object, now: nat, pc: Pc)
    requires Typed(DirectoryService, cr) && Passwords.OnCourse(cr, now, pc) && Passwords.InLoop(pc)
    ensures Passwords.InLoopOf(cr, now, pc) && Passwords.CallsLeft(pc) > 0
  {
  }

  /** Writing the record of a pass back, and the status after it. */
  lemma RecordWritten(w: World, d: Key, cr: Object, annotations: Labels, inputs: seq<Input>) returns (w': World)
    requires d.kind == DirectoryService && Typed(DirectoryService, cr) && d in w.store && w.store[d] == cr
    requires Good(w, inputs) && |inputs| >= 2
    ensures Drive(w, d, At(UpdateCr(annotations), cr), inputs) == Stop(Finished(Outcome(60, false)), w')
    ensures ChangedAt(w, w', d) && d in w'.store && w'.store[d].spec == cr.spec && w'.store[d].status == cr.status
    ensures w'.store[d].meta == cr.meta.(annotations := annotations, version := w'.store[d].meta.version)
  {
    hide Perform, CallOf, Resume;
    var o := cr.(meta := cr.meta.(annotations := annotations));
    w' := if o == cr then w else Written(w, d, Versioned(o, inputs[0].tag), inputs[0].tag);
    RecordPut(w, d, cr, o, inputs[0]);
    RecordTurn(d, cr, annotations, w'.store[d]);
    PutSame(w', d, w'.store[d], inputs[1]);
    DriveTwo(w, d, At(UpdateCr(annotations), cr), inputs);
  }

  lemma RecordPut(w: World, d: Key, cr: Object, o: Object, inp: Input)
    requires d in w.store && w.store[d] == cr && inp.fate == Success && inp.tag !in w.tags
    requires o == cr.(meta := cr.meta.(annotations := o.meta.annotations))
    ensures var w' := if o == cr then w else Written(w, d, Versioned(o, inp.tag), inp.tag);
            Perform(w, Replace(d, o), inp) == Answer(w', Found(w'.store[d]))
  {
    assert Merged(cr, o) == o;
  }

  lemma RecordTurn(d: Key, cr: Object, annotations: Labels, o: Object)
    requires d.kind == DirectoryService && Typed(DirectoryService, cr) && Typed(DirectoryService, o)
    ensures CallOf(d, At(UpdateCr(annotations), cr)) == Replace(d, cr.(meta := cr.meta.(annotations := annotations)))
    ensures Resume(d, At(UpdateCr(annotations), cr), Found(o)) == At(FinalStatus, o)
    ensures CallOf(d, At(FinalStatus, o)) == ReplaceStatus(d, o)
    ensures Resume(d, At(FinalStatus, o), Found(o)) == Finished(Outcome(60, false))
  {
  }

  /** Every account of the table but `uid=admin` and `uid=monitor` has the password that its secret holds. */
  ghost predicate InSync(w: World, d: Key, cr: Object)
    requires Typed(DirectoryService, cr)
  {
    forall dn :: dn in cr.spec.passwords && dn !in {"uid=admin", "uid=monitor"} ==>
      var account, secret := Account(d.namespace, d.name, dn),
          Key(Secret, d.namespace, cr.spec.passwords[dn].secretName);
      && account in w.passwords && secret in w.store && w.store[secret].spec.SecretObject?
      && cr.spec.passwords[dn].key in w.store[secret].spec.data
      && w.passwords[account] == w.store[secret].spec.data[cr.spec.passwords[dn].key]
  }

  /** All these accounts and their secrets exist, and no password is empty. */
  ghost predicate Supplied(w: World, d: Key, cr: Object)
    requires Typed(DirectoryService, cr)
  {
    forall dn :: dn in cr.spec.passwords && dn !in {"uid=admin", "uid=monitor"} ==>
      var account, secret := Account(d.namespace, d.name, dn),
          Key(Secret, d.namespace, cr.spec.passwords[dn].secretName);
      && account in w.passwords && secret in w.store && Typed(Secret, w.store[secret])
      && cr.spec.passwords[dn].key in w.store[secret].spec.data
      && w.store[secret].spec.data[cr.spec.passwords[dn].key] != ""
  }

  lemma SuppliedIsProvided(w: World, d: Key, cr: Object)
    requires Typed(DirectoryService, cr) && Supplied(w, d, cr)
    ensures Passwords.Provided(w, d, cr) && Passwords.AllNonEmpty(w, d, cr)
  {
  }

  lemma NoneWrongIsInSync(w: World, w': World, d: Key, cr: Object)
    requires Typed(DirectoryService, cr) && Supplied(w, d, cr) && w'.store == w.store
    requires Passwords.Wrong(w', d, cr) == {}
    ensures InSync(w', d, cr)
  {
    forall dn | dn in cr.spec.passwords && dn !in {"uid=admin", "uid=monitor"}
      ensures var account, secret := Account(d.namespace, d.name, dn),
              Key(Secret, d.namespace, cr.spec.passwords[dn].secretName);
              && account in w'.passwords && secret in w'.store && w'.store[secret].spec.SecretObject?
              && cr.spec.passwords[dn].key in w'.store[secret].spec.data
              && w'.passwords[account] == w'.store[secret].spec.data[cr.spec.passwords[dn].key]
    {
      assert dn !in Passwords.Wrong(w', d, cr);
    }
  }

  lemma InSyncAfter(w: World, w': World, d: Key, cr: Object)
    requires Typed(DirectoryService, cr) && d.kind == DirectoryService && InSync(w, d, cr) && ChangedAt(w, w', d)
    ensures InSync(w', d, cr)
  {
  }

  /** The pass by itself, from its start to the writing of its record. */
  lemma WholePass(w: World, d: Key, cr: Object, inputs: seq<Input>) returns (w1: World, rest: seq<Input>)
    requires d.kind == DirectoryService && Typed(DirectoryService, cr) && Supplied(w, d, cr)
    requires cr.meta.annotations != map[]
    requires Good(w, inputs) && |inputs| >= 4 * |cr.spec.passwords.Keys|
    requires Passwords.Served(w, d, NextAccount(cr, cr.spec.passwords.Keys, w.clock), inputs)
    ensures var record := Passwords.Recording(cr.meta.annotations, w.clock);
            Leads(w, d, NextAccount(cr, cr.spec.passwords.Keys, w.clock), inputs, w1, At(UpdateCr(record), cr), rest)
    ensures Good(w1, rest) && |rest| >= |inputs| - 4 * |cr.spec.passwords.Keys|
    ensures InSync(w1, d, cr) && w1 == w.(passwords := w1.passwords)
  {
    hide Drive, Good, NextAccount, Passwords.Pass, Passwords.Served, Supplied, Passwords.Provided;
    hide Passwords.AllNonEmpty, Passwords.OnCourse, Passwords.Recording, InSync, Passwords.Wrong, IsSuffix;
    var keys, pc := cr.spec.passwords.Keys, NextAccount(cr, cr.spec.passwords.Keys, w.clock);
    SuppliedIsProvided(w, d, cr);
    Passwords.NextOnCourse(cr, keys, w.clock);
    Passwords.PassCompletes(w, d, cr, w.clock, pc, inputs);
    rest := PassDrives(w, d, cr, w.clock, pc, inputs);
    var stop := Passwords.Pass(w, d, pc, inputs);
    w1 := stop.world;
    EndsInRecord(cr, w.clock, stop.pc);
    Passwords.CompletedPassSynchronises(w, d, cr, w.clock, inputs, Passwords.Recording(cr.meta.annotations, w.clock));
    PassChangesPasswords(w, d, cr, w.clock, inputs);
    NoneWrongIsInSync(w, w1, d, cr);
    StillGood(w, w1, inputs, rest);
  }

  lemma PassChangesPasswords(w: World, d: Key, cr: Object, now: nat, inputs: seq<Input>)
    requires d.kind == DirectoryService && Typed(DirectoryService, cr)
    ensures var w1 := Passwords.Pass(w, d, NextAccount(cr, cr.spec.passwords.Keys, now), inputs).world;
            w1 == w.(passwords := w1.passwords)
  {
    hide NextAccount, Passwords.Pass, Passwords.InSync, Passwords.Wanted, FormatInt;
    Passwords.AfterAccount(cr, cr.spec.passwords.Keys, now);
    Passwords.PassKeeps(w, w, d, cr, NextAccount(cr, cr.spec.passwords.Keys, now), inputs);
  }

  lemma EndsInRecord(cr: Object, now: nat, pc: Pc)
    requires Typed(DirectoryService, cr) && Passwords.OnCourse(cr, now, pc) && !Passwords.InLoop(pc)
    requires cr.meta.annotations != map[]
    ensures pc == At(UpdateCr(Passwords.Recording(cr.meta.annotations, now)), cr)
  {
    hide FormatInt;
  }

  lemma StillGood(w: World, w': World, inputs: seq<Input>, rest: seq<Input>)
    requires Good(w, inputs) && IsSuffix(rest, inputs) && w'.tags == w.tags
    ensures Good(w', rest)
  {
    GoodTail(w, w', inputs, |inputs| - |rest|);
  }

  /** The directory part of an undisturbed reconcile whose calls succeed, when a pass is due: all passwords are in order
      afterwards, the time of the pass is on record in the custom resource, and nothing else in the store has
      changed. */
  lemma SyncOutcome(w: World, d: Key, cr: Object, inputs: seq<Input>) returns (w': World)
    requires d.kind == DirectoryService && Typed(DirectoryService, cr) && d in w.store && w.store[d] == cr
    requires Throttle.PassDue(cr.meta.annotations, w.clock) && cr.meta.annotations != map[] && Supplied(w, d, cr)
    requires Good(w, inputs) && |inputs| >= 4 * |cr.spec.passwords.Keys| + 4
    requires Passwords.Served(w, d, NextAccount(cr, cr.spec.passwords.Keys, w.clock), inputs[2..])
    ensures Drive(w, d, At(Connect, cr), inputs) == Stop(Finished(Outcome(60, false)), w')
    ensures InSync(w', d, cr) && d in w'.store && w'.store[d].spec == cr.spec && w'.store[d].status == cr.status
    ensures w'.store[d].meta.annotations == Passwords.Recording(cr.meta.annotations, w.clock)
    ensures forall k :: k != d ==> (k in w'.store <==> k in w.store) && (k in w.store ==> w'.store[k] == w.store[k])
  {
    hide Drive, Good, NextAccount, Passwords.Served, Supplied, InSync, FormatInt, Throttle.PassDue, TooSoon, Perform,
        CallOf,
      Resume;
    var pc := NextAccount(cr, cr.spec.passwords.Keys, w.clock);
    Attempted(w, d, Connect, cr, inputs);
    var in1 := inputs[1..];
    DriveOne(w, d, At(PassClock, cr), in1);
    Throttle.ClockTurn(w, d, cr, in1[0]);
    Throttle.DueUnlessTooSoon(cr.meta.annotations, w.clock);
    GoodTail(w, w, in1, 1);
    assert in1[1..] == inputs[2..];
    var w1, rest := WholePass(w, d, cr, inputs[2..]);
    w' := RecordWritten(w1, d, cr, Passwords.Recording(cr.meta.annotations, w.clock), rest);
    InSyncAfter(w1, w', d, cr);
  }
}
