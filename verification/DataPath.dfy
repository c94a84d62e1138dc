/** From a claim through backup, restore and a new service: what the volumes hold at the end of the way. */
module DataPath {
  import opened Text
  import opened Naming
  import opened Cluster
  import opened Listing
  import opened Controllers
  import opened Runs
  import opened Separation
  import opened Backups
  import Restores

  /** A backup `b` of claim `c`, a restore `r` from its backup claim, a service `d` started from the restore's
      snapshot; `cuts` holds the contents that `c` has whenever the backup's snapshot is cut, and `live` says
      whether the service is already the one started from that snapshot (it may be the one backed up before). */
  datatype Route = Route(b: Key, r: Key, d: Key, c: string, cuts: set<Blob>, live: bool)

  predicate ValidRoute(p: Route) {
    && p.b.kind == DirectoryBackup && p.r.kind == DirectoryRestore && p.d.kind == DirectoryService
    && p.b.namespace == p.r.namespace == p.d.namespace
  }

  ghost predicate Apart(p: Route) {
    ValidRoute(p) && NamesApart(p.b, p.r) && NamesApart(p.b, p.d) && NamesApart(p.r, p.d)
  }

  function RestoredSource(p: Route): DataSource {
    DataSource("VolumeSnapshot", Temp(p.r.name), SNAPSHOT_GROUP)
  }

  function Clone(p: Route): Key { Key(Claim, p.b.namespace, Temp(p.b.name)) }
  function Archive(p: Route): Key { Key(Claim, p.b.namespace, p.b.name) }
  function Restored(p: Route): Key { Key(Claim, p.b.namespace, Temp(p.r.name)) }
  function BackupSnap(p: Route): Key { Key(Snapshot, p.b.namespace, Temp(p.b.name)) }

  /** What an object on the way refers to. */
  ghost predicate Fit(p: Route, key: Key, spec: Spec) {
    && (key == BackupSnap(p) ==> spec.SnapshotObject? && spec.source == p.c)
    && (key == Clone(p) ==> spec.ClaimObject? && spec.claim.source == Some(CloneSource(p.b)))
    && (key == JobKey(p.b) ==>
          spec.JobObject? && spec.tool == BackupTool && spec.dataClaim == Temp(p.b.name)
              && spec.backupClaim == p.b.name)
    && (key == JobKey(p.r) ==>
          spec.JobObject? && spec.tool == RestoreTool && spec.dataClaim == Temp(p.r.name)
              && spec.backupClaim == p.b.name)
    && (p.live && IsDataClaim(p.d, key) ==> spec.ClaimObject? && spec.claim.source == Some(RestoredSource(p)))
    && (key == p.b ==> spec.BackupSpec? && spec.claimToBackup == p.c)
    && (key == p.r ==> spec.RestoreSpec? && spec.sourceClaim == p.b.name)
    && (p.live && key == p.d ==> spec.ServiceSpec? && spec.pod.claim.source == Some(RestoredSource(p)))
  }

  predicate OnRoute(p: Route, req: Key) {
    req == p.b || req == p.r || req == p.d
  }

  ghost predicate Aligned(p: Route, pc: Pc, req: Key) {
    OnRoute(p, req) && (pc.At? || pc.Creating? || pc.Updating?) ==> Fit(p, req, pc.cr.spec)
  }

  ghost predicate Linked(s: System, p: Route) {
    && (forall key :: key in s.world.store ==> Fit(p, key, s.world.store[key].spec))
    && (forall req :: req in s.threads ==> Aligned(p, s.threads[req], req))
  }

  /** Custom resources off the route have names apart from those on it; whoever edits an object on the
      route keeps what it refers to. */
  ghost predicate Permitted(l: Label, p: Route) {
    && (l.Step? ==>
          && IsCustom(l.req.kind)
          && (!OnRoute(p, l.req) ==> NamesApart(p.b, l.req) && NamesApart(p.r, l.req) && NamesApart(p.d, l.req)))
    && (l.Edit? ==> Fit(p, l.key, l.obj.spec))
  }

  lemma NeverLatest(p: Route)
    ensures RestoredSource(p).name != LATEST
  {
    assert Temp(p.r.name)[0] == 't' && LATEST[0] == '$';
  }

  /** Only the reconciles on the route make the objects on it. */
  lemma OffRoute(p: Route, req: Key, key: Key, spec: Spec)
    requires Apart(p) && IsCustom(req.kind) && Owns(req, key) && !OnRoute(p, req) && !IsCustom(key.kind)
    requires NamesApart(p.b, req) && NamesApart(p.r, req) && NamesApart(p.d, req)
    ensures Fit(p, key, spec)
  {
    hide NamesApart;
    ApartNeverMeet(p.b, req, key);
    ApartNeverMeet(p.r, req, key);
    ApartNeverMeet(p.d, req, key);
  }

  lemma OtherClauses(p: Route, req: Key, key: Key)
    requires Apart(p) && OnRoute(p, req) && Owns(req, key)
    ensures req != p.b ==> !Owns(p.b, key)
    ensures req != p.r ==> !Owns(p.r, key)
    ensures req != p.d ==> !Owns(p.d, key)
  {
    hide NamesApart, Owns;
    if req != p.b {
      if req == p.r { ApartNeverMeet(p.b, p.r, key); } else { ApartNeverMeet(p.b, p.d, key); }
    }
    if req != p.r {
      if req == p.b { ApartNeverMeet(p.b, p.r, key); } else { ApartNeverMeet(p.r, p.d, key); }
    }
    if req != p.d {
      if req == p.b { ApartNeverMeet(p.b, p.d, key); } else { ApartNeverMeet(p.r, p.d, key); }
    }
  }

  lemma BackupFits(p: Route, st: Stage, cr: Object, o: Object)
    requires ValidRoute(p) && Fits(DirectoryBackup, st, cr) && IsUpsert(st) && Drafted(p.b, st, cr, o)
    requires Fit(p, p.b, cr.spec) && !Owns(p.r, Target(p.b, st)) && !Owns(p.d, Target(p.b, st))
    ensures Fit(p, Target(p.b, st), o.spec)
  {
    TempInjective(p.b.name, p.b.name);
  }

  lemma RestoreFits(p: Route, st: Stage, cr: Object, o: Object)
    requires ValidRoute(p) && Fits(DirectoryRestore, st, cr) && IsUpsert(st) && Drafted(p.r, st, cr, o)
    requires Fit(p, p.r, cr.spec) && !Owns(p.b, Target(p.r, st)) && !Owns(p.d, Target(p.r, st))
    ensures Fit(p, Target(p.r, st), o.spec)
  {
    hide StandardLabels, NewMeta, Owner, IsDataClaim;
  }

  lemma ServiceFits(p: Route, st: Stage, cr: Object, o: Object)
    requires ValidRoute(p) && Fits(DirectoryService, st, cr) && IsUpsert(st) && Drafted(p.d, st, cr, o)
    requires Fit(p, p.d, cr.spec) && !Owns(p.b, Target(p.d, st)) && !Owns(p.r, Target(p.d, st))
    ensures Fit(p, Target(p.d, st), o.spec)
  {
    hide StandardLabels, NewMeta, Owner, FormatInt;
    NeverLatest(p);
  }

  lemma CreatedFits(p: Route, req: Key, st: Stage, cr: Object, o: Object)
    requires Apart(p) && IsCustom(req.kind) && Fits(req.kind, st, cr) && IsUpsert(st) && Drafted(req, st, cr, o)
    requires OnRoute(p, req) ==> Fit(p, req, cr.spec)
    requires !OnRoute(p, req) ==> NamesApart(p.b, req) && NamesApart(p.r, req) && NamesApart(p.d, req)
    ensures Fit(p, Target(req, st), o.spec)
  {
    hide NamesApart, Fit, Owns, Drafted;
    TargetIsOwned(req, st);
    if !OnRoute(p, req) {
      OffRoute(p, req, Target(req, st), o.spec);
    } else {
      OtherClauses(p, req, Target(req, st));
      if req == p.b { BackupFits(p, st, cr, o); }
      else if req == p.r { RestoreFits(p, st, cr, o); }
      else { ServiceFits(p, st, cr, o); }
    }
  }

  /** Whatever a call leaves in the store fits, given that the store did. */
  lemma StepFits(w: World, p: Route, req: Key, pc: Pc, inp: Input, key: Key)
    requires ThreadOk(w, req, pc) && Apart(p) && Aligned(p, pc, req) && IsCustom(req.kind)
    requires !OnRoute(p, req) ==> NamesApart(p.b, req) && NamesApart(p.r, req) && NamesApart(p.d, req)
    requires key in w.store ==> Fit(p, key, w.store[key].spec)
    ensures var store := Perform(w, CallOf(req, pc), inp).world.store;
            key in store ==> Fit(p, key, store[key].spec)
  {
    hide NamesApart, Perform, CallOf, Fit, Drafted;
    if key in w.store {
      StepPreserves(w, req, pc, inp, key);
      if key.kind == StatefulSet {
        SetsFit(p, key);
      }
    } else {
      StepEffect(w, req, pc, inp);
      if pc.Creating? && Target(req, pc.stage) == key {
        CreatedFits(p, req, pc.stage, pc.cr, pc.obj);
      }
    }
  }

  lemma SetsFit(p: Route, key: Key)
    requires ValidRoute(p) && key.kind == StatefulSet
    ensures forall spec :: Fit(p, key, spec)
  {
  }

  lemma LinkedByStep(s: System, p: Route, req: Key, inp: Input)
    requires Sound(s) && Linked(s, p) && Apart(p) && Permitted(Step(req, inp), p)
    ensures Linked(Move(s, req, inp), p)
  {
    hide NamesApart, Perform, CallOf, Resume, Fit;
    var pc := PcOf(s, req);
    assert ThreadOk(s.world, req, pc);
    assert Aligned(p, pc, req);
    var s' := Move(s, req, inp);
    forall key | key in s'.world.store
      ensures Fit(p, key, s'.world.store[key].spec)
    {
      StepFits(s.world, p, req, pc, inp, key);
    }
    CrSpecAfter(s.world, req, pc, inp);
  }

  lemma LinkedOutside(tools: Tools, w: World, l: Label, p: Route, key: Key)
    requires !l.Step? && !l.Crash? && Permitted(l, p) && (key in w.store ==> Fit(p, key, w.store[key].spec))
    ensures var store := Outside(tools, w, l).store;
            key in store ==> Fit(p, key, store[key].spec)
  {
    hide Fit;
    if !Touches(l, key) {
      hide Outside;
      OutsideKeeps(tools, w, l, key);
    }
  }

  lemma LinkedKept(tools: Tools, s: System, l: Label, p: Route)
    requires Sound(s) && Linked(s, p) && Apart(p) && Permitted(l, p)
    ensures Linked(Do(tools, s, l), p)
  {
    hide Move, Outside, Fit, Apart, Permitted;
    if l.Step? {
      assert l == Step(l.req, l.inp);
      LinkedByStep(s, p, l.req, l.inp);
    } else if !l.Crash? {
      forall key | key in Outside(tools, s.world, l).store
        ensures Fit(p, key, Outside(tools, s.world, l).store[key].spec)
      {
        LinkedOutside(tools, s.world, l, p, key);
      }
    }
  }

  // ------------------------------------------------------------------------ what the volumes hold

  /** A pod or a completing job puts something into the volume. */
  predicate Writes(w: World, l: Label, key: Key) {
    || (l.Write? && l.key == key)
    || (&& l.RunJob? && l.key in w.store && w.store[l.key].spec.JobObject?
        && var spec := w.store[l.key].spec;
           key == Key(Claim, l.key.namespace, if spec.tool.BackupTool? then spec.backupClaim else spec.dataClaim))
  }

  predicate CutRecorded(w: World, l: Label, p: Route) {
    var claim := Key(Claim, p.b.namespace, p.c);
    l.Cut? && l.key == BackupSnap(p) && IsCut(w, l.key) && claim in w.volumes ==> w.volumes[claim] in p.cuts
  }

  ghost predicate FromCuts(w: World, p: Route) {
    && (BackupSnap(p) in w.images ==> w.images[BackupSnap(p)] in p.cuts)
    && (Clone(p) in w.volumes ==> w.volumes[Clone(p)] in p.cuts)
  }

  ghost predicate ImageStored(w: World, key: Key) {
    key in w.images ==> key in w.store
  }

  /** A volume that nobody writes to or deletes keeps its content. */
  lemma VolumeStays(tools: Tools, s: System, l: Label, key: Key)
    requires Sound(s) && key.kind == Claim && key in s.world.volumes
    requires !Writes(s.world, l, key) && l != Remove(key)
    ensures var w := Do(tools, s, l).world;
            key in w.volumes && w.volumes[key] == s.world.volumes[key]
  {
    hide Perform, CallOf, Resume;
    if l.Step? {
      assert ThreadOk(s.world, l.req, PcOf(s, l.req));
      StepStorage(s.world, l.req, PcOf(s, l.req), l.inp);
    }
  }

  /** Nothing but cutting it gives a snapshot its image. */
  lemma ImageComesFromCut(tools: Tools, s: System, l: Label, key: Key)
    requires Sound(s)
    ensures var w := Do(tools, s, l).world;
            key in w.images ==>
              || (key in s.world.images && w.images[key] == s.world.images[key])
              || (l == Cut(key) && IsCut(s.world, key)
                  && w.images[key] == s.world.volumes[Key(Claim, key.namespace, s.world.store[key].spec.source)])
  {
    hide Perform, CallOf, Resume, Edited, JobRan, Provisioned;
    if l.Step? {
      assert ThreadOk(s.world, l.req, PcOf(s, l.req));
      StepStorage(s.world, l.req, PcOf(s, l.req), l.inp);
    } else if l.Edit? || l.RunJob? || l.Provision? {
      StorageApart(tools, s.world, l);
    }
  }

  lemma StorageApart(tools: Tools, w: World, l: Label)
    requires l.Edit? || l.RunJob? || l.Provision?
    ensures Outside(tools, w, l).images == w.images
  {
  }

  /** Nothing but provisioning gives a claim its volume, and nothing but a writer changes it. */
  lemma VolumeComesFromProvision(tools: Tools, s: System, l: Label, key: Key)
    requires Sound(s) && !Writes(s.world, l, key) && key.kind == Claim
    ensures var w := Do(tools, s, l).world;
            key in w.volumes ==>
              || (key in s.world.volumes && w.volumes[key] == s.world.volumes[key])
              || (&& l.Provision? && l.key == key && key in s.world.store && key !in s.world.volumes
                  && w == Provisioned(s.world, key, l.blank))
  {
    hide Perform, CallOf, Resume, Edited;
    if l.Step? {
      assert ThreadOk(s.world, l.req, PcOf(s, l.req));
      StepStorage(s.world, l.req, PcOf(s, l.req), l.inp);
    } else if l.Edit? {
      EditKeepsVolumes(s.world, l.key, l.obj, l.tag);
    }
  }

  lemma EditKeepsVolumes(w: World, key: Key, o: Object, tag: nat)
    ensures Edited(w, key, o, tag).volumes == w.volumes
  {
  }

  /** A claim made from a snapshot starts with the image of that snapshot. */
  lemma ProvisionedFromImage(w: World, key: Key, blank: Blob, source: DataSource)
    requires key.kind == Claim && key in w.store && key !in w.volumes
    requires w.store[key].spec.ClaimObject? && w.store[key].spec.claim.source == Some(source)
    requires source.kind == "VolumeSnapshot"
    ensures var w' := Provisioned(w, key, blank);
            var snap := Key(Snapshot, key.namespace, source.name);
            && (key in w'.volumes <==> snap in w.images)
            && (snap in w.images ==> w'.volumes[key] == w.images[snap])
  {
  }

  lemma CutsKept(tools: Tools, s: System, l: Label, p: Route)
    requires Sound(s) && ValidRoute(p) && Linked(s, p) && FromCuts(s.world, p)
    requires CutRecorded(s.world, l, p) && !Writes(s.world, l, Clone(p))
    ensures FromCuts(Do(tools, s, l).world, p)
  {
    hide Do, Provisioned, Writes;
    ImageComesFromCut(tools, s, l, BackupSnap(p));
    VolumeComesFromProvision(tools, s, l, Clone(p));
    if l.Provision? && l.key == Clone(p) && Clone(p) in s.world.store && Clone(p) !in s.world.volumes {
      ProvisionedFromImage(s.world, Clone(p), l.blank, CloneSource(p.b));
    }
  }

  lemma ImageStoredKept(tools: Tools, s: System, l: Label, key: Key)
    requires Sound(s) && ImageStored(s.world, key) && key.kind == Snapshot
    ensures ImageStored(Do(tools, s, l).world, key)
  {
    hide Perform, CallOf, Resume, Fresh, Adjusted, Target;
    if l.Step? {
      assert ThreadOk(s.world, l.req, PcOf(s, l.req));
      StepEffect(s.world, l.req, PcOf(s, l.req), l.inp);
    }
  }

  // -------------------------------------------------------------------------------- the whole way

  /** What holds all along the way. */
  ghost predicate Sane(s: System, p: Route) {
    && Sound(s) && Linked(s, p) && FromCuts(s.world, p)
    && Restores.Inv(s, p.r) && ImageStored(s.world, Restores.SnapKey(p.r))
  }

  ghost predicate Lawful(tools: Tools, s: System, run: seq<Label>, p: Route)
    decreases |run|
  {
    run != [] ==>
      && Permitted(run[0], p) && Restores.Permitted(s.world, run[0], p.r)
      && CutRecorded(s.world, run[0], p) && !Writes(s.world, run[0], Clone(p))
      && Lawful(tools, Do(tools, s, run[0]), run[1..], p)
  }

  /** Nobody writes to the claim or deletes it. */
  ghost predicate Undisturbed(tools: Tools, s: System, run: seq<Label>, key: Key)
    decreases |run|
  {
    run != [] ==>
      && !Writes(s.world, run[0], key) && run[0] != Remove(key)
      && Undisturbed(tools, Do(tools, s, run[0]), run[1..], key)
  }

  lemma SaneKept(tools: Tools, s: System, l: Label, p: Route)
    requires Sane(s, p) && Apart(p) && Permitted(l, p) && Restores.Permitted(s.world, l, p.r)
    requires CutRecorded(s.world, l, p) && !Writes(s.world, l, Clone(p))
    ensures Sane(Do(tools, s, l), p)
  {
    hide Do, Sound, Linked, FromCuts, Restores.Inv, ImageStored, Permitted, Restores.Permitted, CutRecorded, Writes;
    SoundKept(tools, s, l);
    LinkedKept(tools, s, l, p);
    CutsKept(tools, s, l, p);
    Restores.InvKept(tools, s, l, p.r);
    ImageStoredKept(tools, s, l, Restores.SnapKey(p.r));
  }

  lemma {:induction false} SaneRuns(tools: Tools, s: System, run: seq<Label>, p: Route)
    requires Sane(s, p) && Apart(p) && Lawful(tools, s, run, p)
    ensures Sane(Exec(tools, s, run), p)
    decreases |run|
  {
    hide Do, Sane, Permitted, Restores.Permitted, CutRecorded, Writes, Apart;
    if run == [] {
    } else {
      SaneKept(tools, s, run[0], p);
      SaneRuns(tools, Do(tools, s, run[0]), run[1..], p);
    }
  }

  lemma {:induction false} VolumeStaysPut(tools: Tools, s: System, run: seq<Label>, key: Key)
    requires Sound(s) && key.kind == Claim && key in s.world.volumes && Undisturbed(tools, s, run, key)
    ensures var w := Exec(tools, s, run).world;
            key in w.volumes && w.volumes[key] == s.world.volumes[key]
    decreases |run|
  {
    hide Do, Sound, Writes;
    if run == [] {
    } else {
      SoundKept(tools, s, run[0]);
      VolumeStays(tools, s, run[0], key);
      VolumeStaysPut(tools, Do(tools, s, run[0]), run[1..], key);
    }
  }

  /** The restored volume holds `h`, and so does every image of it. */
  ghost predicate Holds(w: World, p: Route, h: Blob) {
    && Restored(p) in w.volumes && w.volumes[Restored(p)] == h
    && (Restores.SnapKey(p.r) in w.images ==> w.images[Restores.SnapKey(p.r)] == h)
  }

  lemma HoldsKept(tools: Tools, s: System, l: Label, p: Route, h: Blob)
    requires Sane(s, p) && ValidRoute(p) && Holds(s.world, p, h)
    requires !Writes(s.world, l, Restored(p)) && l != Remove(Restored(p))
    ensures Holds(Do(tools, s, l).world, p, h)
  {
    hide Do, Sound, Linked, FromCuts, Writes;
    VolumeStays(tools, s, l, Restored(p));
    ImageComesFromCut(tools, s, l, Restores.SnapKey(p.r));
  }

  lemma {:induction false} HoldsRuns(tools: Tools, s: System, run: seq<Label>, p: Route, h: Blob)
    requires Sane(s, p) && Apart(p) && Lawful(tools, s, run, p)
    requires Holds(s.world, p, h) && Undisturbed(tools, s, run, Restored(p))
    ensures Sane(Exec(tools, s, run), p) && Holds(Exec(tools, s, run).world, p, h)
    decreases |run|
  {
    hide Do, Sane, Holds, Permitted, Restores.Permitted, CutRecorded, Writes, NamesApart;
    if run == [] {
    } else {
      SaneKept(tools, s, run[0], p);
      HoldsKept(tools, s, run[0], p, h);
      HoldsRuns(tools, Do(tools, s, run[0]), run[1..], p, h);
    }
  }

  /** The label lets a job complete. */
  predicate Completes(tools: Tools, w: World, l: Label, job: Key) {
    l.RunJob? && l.key == job && JobRan(tools, w, job, l.tag) != w
  }

  lemma BackupCompletes(tools: Tools, s: System, l: Label, p: Route)
    requires Sane(s, p) && ValidRoute(p) && Completes(tools, s.world, l, JobKey(p.b))
    ensures Clone(p) in s.world.volumes && s.world.volumes[Clone(p)] in p.cuts
    ensures var w := Do(tools, s, l).world;
            Archive(p) in w.volumes && w.volumes[Archive(p)] == tools.archive(s.world.volumes[Clone(p)])
  {
    hide Restores.Inv, Sound;
  }

  lemma RestoreCompletes(tools: Tools, s: System, l: Label, p: Route)
    requires Sane(s, p) && Apart(p) && Completes(tools, s.world, l, JobKey(p.r))
    ensures Archive(p) in s.world.volumes
    ensures Holds(Do(tools, s, l).world, p, tools.unpack(s.world.volumes[Archive(p)]))
  {
    hide Sound, FromCuts;
    assert Restores.SnapKey(p.r) !in s.world.images;
  }

  /** Nothing of the way exists yet: no reconcile in flight, no clone, no job or snapshot of the restore. */
  ghost predicate AtTheStart(s: System, p: Route) {
    && Sound(s) && s.threads == map[] && Linked(s, p)
    && BackupSnap(p) !in s.world.images && Clone(p) !in s.world.volumes
    && JobKey(p.r) !in s.world.store
    && Restores.SnapKey(p.r) !in s.world.store && Restores.SnapKey(p.r) !in s.world.images
    && (p.r in s.world.store ==> s.world.store[p.r].status == RunTimes(None, None))
  }

  /** The service starts anew: it has no claims, no reconcile of it is in flight, and its custom resource, if
      already there, names the restore's snapshot. */
  ghost predicate StartsAnew(s: System, p: Route) {
    && (forall key :: IsDataClaim(p.d, key) ==> key !in s.world.store)
    && p.d !in s.threads
    && (p.d in s.world.store ==> Fit(p.(live := true), p.d, s.world.store[p.d].spec))
  }

  /** One run of the whole way: the backup's job completes with `backup` and the restore's job with `restore`. */
  datatype Way = Way(
    run1: seq<Label>, backup: Label, run2: seq<Label>, restore: Label, run3: seq<Label>, run4: seq<Label>)

  ghost function After1(tools: Tools, s: System, way: Way): System { Exec(tools, s, way.run1) }
  ghost function After2(tools: Tools, s: System, way: Way): System {
    Exec(tools, Do(tools, After1(tools, s, way), way.backup), way.run2)
  }
  ghost function After3(tools: Tools, s: System, way: Way): System {
    Exec(tools, Do(tools, After2(tools, s, way), way.restore), way.run3)
  }

  /** The names are apart all along, the volumes on the way have no other writers, and the service starts
      anew after the restore. */
  ghost predicate Followed(tools: Tools, s: System, p: Route, way: Way) {
    var s1, s2, s3 := After1(tools, s, way), After2(tools, s, way), After3(tools, s, way);
    && Lawful(tools, s, way.run1, p)
    && Completes(tools, s1.world, way.backup, JobKey(p.b))
    && Lawful(tools, s1, [way.backup] + way.run2, p)
    && Undisturbed(tools, Do(tools, s1, way.backup), way.run2, Archive(p))
    && Completes(tools, s2.world, way.restore, JobKey(p.r))
    && Lawful(tools, s2, [way.restore] + way.run3, p)
    && Undisturbed(tools, Do(tools, s2, way.restore), way.run3, Restored(p))
    && StartsAnew(s3, p)
    && Lawful(tools, s3, way.run4, p.(live := true))
    && Undisturbed(tools, s3, way.run4, Restored(p))
  }

  /** End to end. A backup of `c` completes at some point of a run, a restore from its backup claim completes
      later, and a service is started from the restore's snapshot. If unpacking undoes archiving, then in every
      interleaving each claim of the service starts with what `c` held when the backup's snapshot was cut, and
      all of them start alike. */
  lemma RestoredServiceHoldsTheBackup(tools: Tools, s: System, p: Route, way: Way, ordinal: nat, blank: Blob)
    requires Apart(p) && !p.live && AtTheStart(s, p) && (forall x :: tools.unpack(tools.archive(x)) == x)
    requires Followed(tools, s, p, way)
    ensures var end := Exec(tools, s, way.run1 + [way.backup] + way.run2 + [way.restore] + way.run3 + way.run4);
            var claim := Key(Claim, p.d.namespace, DataClaim(p.d.name, ordinal));
            claim in end.world.store && claim !in end.world.volumes && Restores.SnapKey(p.r) in end.world.images ==>
              var volumes := Do(tools, end, Provision(claim, blank)).world.volumes;
              var backedUp := After1(tools, s, way).world.volumes;
              && claim in volumes && Clone(p) in backedUp
              && volumes[claim] == backedUp[Clone(p)]
              && volumes[claim] in p.cuts
  {
    hide Lawful, Undisturbed, Completes, NamesApart, Sane, Do, Fit, Holds, StartsAnew;
    SaneAtFirst(s, p);
    SaneRuns(tools, s, way.run1, p);
    var s1 := After1(tools, s, way);
    BackupCompletes(tools, s1, way.backup, p);
    LawfulTail(tools, s1, way.backup, way.run2, p);
    var h := s1.world.volumes[Clone(p)];
    var s1' := Do(tools, s1, way.backup);
    SaneIsSound(s1', p);
    VolumeStaysPut(tools, s1', way.run2, Archive(p));
    SaneRuns(tools, s1', way.run2, p);
    var s2 := After2(tools, s, way);
    RestoreCompletes(tools, s2, way.restore, p);
    LawfulTail(tools, s2, way.restore, way.run3, p);
    HoldsRuns(tools, Do(tools, s2, way.restore), way.run3, p, h);
    var s3 := After3(tools, s, way);
    GoesLive(s3, p, h);
    HoldsRuns(tools, s3, way.run4, p.(live := true), h);
    Concatenated(tools, s, way);
    ClaimStarts(tools, Exec(tools, s3, way.run4), p.(live := true), ordinal, blank, h);
  }

  lemma GoesLive(s: System, p: Route, h: Blob)
    requires Sane(s, p) && !p.live && Holds(s.world, p, h) && StartsAnew(s, p) && ValidRoute(p)
    ensures Sane(s, p.(live := true)) && Holds(s.world, p.(live := true), h)
  {
    hide Sound, Restores.Inv;
    var q := p.(live := true);
    forall key | key in s.world.store
      ensures Fit(q, key, s.world.store[key].spec)
    {
      assert Fit(p, key, s.world.store[key].spec);
    }
    forall req | req in s.threads
      ensures Aligned(q, s.threads[req], req)
    {
      assert Aligned(p, s.threads[req], req);
    }
  }

  lemma SaneAtFirst(s: System, p: Route)
    requires AtTheStart(s, p)
    ensures Sane(s, p)
  {
  }

  lemma SaneIsSound(s: System, p: Route)
    requires Sane(s, p)
    ensures Sound(s)
  {
  }

  lemma LawfulTail(tools: Tools, s: System, l: Label, run: seq<Label>, p: Route)
    requires Sane(s, p) && Apart(p) && Lawful(tools, s, [l] + run, p)
    ensures Sane(Do(tools, s, l), p) && Lawful(tools, Do(tools, s, l), run, p)
  {
    hide Do, Sane, NamesApart;
    assert ([l] + run)[0] == l && ([l] + run)[1..] == run;
    SaneKept(tools, s, l, p);
  }

  lemma Concatenated(tools: Tools, s: System, way: Way)
    ensures Exec(tools, s, way.run1 + [way.backup] + way.run2 + [way.restore] + way.run3 + way.run4)
            == Exec(tools, After3(tools, s, way), way.run4)
  {
    hide Do;
    ExecAppend(tools, s, way.run1 + [way.backup] + way.run2 + [way.restore] + way.run3, way.run4);
    ExecAppend(tools, s, way.run1 + [way.backup] + way.run2 + [way.restore], way.run3);
    ExecAppend(tools, s, way.run1 + [way.backup] + way.run2, [way.restore]);
    ExecAppend(tools, s, way.run1 + [way.backup], way.run2);
    ExecAppend(tools, s, way.run1, [way.backup]);
  }

  lemma ClaimStarts(tools: Tools, s: System, p: Route, ordinal: nat, blank: Blob, h: Blob)
    requires Sane(s, p) && ValidRoute(p) && p.live && Holds(s.world, p, h)
    ensures var claim := Key(Claim, p.d.namespace, DataClaim(p.d.name, ordinal));
            claim in s.world.store && claim !in s.world.volumes && Restores.SnapKey(p.r) in s.world.images ==>
              var volumes := Do(tools, s, Provision(claim, blank)).world.volumes;
              claim in volumes && volumes[claim] == h
  {
    hide Sound, FromCuts, Restores.Inv, Provisioned;
    var claim := Key(Claim, p.d.namespace, DataClaim(p.d.name, ordinal));
    assert IsDataClaim(p.d, claim);
    if claim in s.world.store && claim !in s.world.volumes {
      ProvisionedFromImage(s.world, claim, blank, RestoredSource(p));
    }
  }
}
