/** All runs: reconciles of any number of custom resources interleaved call by call with each other, with
    operator restarts and with everything else that happens in the cluster. */
module Runs {
  import opened Text
  import opened Cluster
  import opened Listing
  import opened Controllers

  /** `threads` holds the reconciles in flight, at most one for each custom resource. */
  datatype System = System(world: World, threads: map<Key, Pc>)

  /** The directory's own programs: writing a backup volume from a data volume, and the way back. */
  datatype Tools = Tools(archive: Blob -> Blob, unpack: Blob -> Blob)

  datatype Label =
    // the operator: the next call of a reconcile (starting one if none is in flight), or a restart
    | Step(req: Key, inp: Input)
    | Crash
    // everybody else: time, any create or update of an object, any deletion
    | Tick(clock: nat)
    | Edit(key: Key, obj: Object, tag: nat)
    | Remove(key: Key)
    // storage: a snapshot is cut, a claim gets its volume, a pod writes to a volume
    | Cut(key: Key)
    | Provision(key: Key, blank: Blob)
    | Write(key: Key, blob: Blob)
    // a job completes, and a directory account changes by itself
    | RunJob(key: Key, tag: nat)
    | Enroll(account: Account, password: string)

  function PcOf(s: System, req: Key): Pc {
    if req in s.threads then s.threads[req] else Start
  }

  function SnapshotSource(key: Key, claim: ClaimSpec): Option<Key> {
    if claim.source.Some? && claim.source.value.kind == "VolumeSnapshot"
    then Some(Key(Snapshot, key.namespace, claim.source.value.name)) else None
  }

  ghost function Move(s: System, req: Key, inp: Input): System {
    var pc := PcOf(s, req);
    if !Ready(req.kind, pc) || pc.Finished? then s
    else
      var answer := Perform(s.world, CallOf(req, pc), inp);
      var next := Resume(req, pc, answer.reply);
      System(answer.world, if next.Finished? then s.threads - {req} else s.threads[req := next])
  }

  function Edited(w: World, key: Key, o: Object, tag: nat): World {
    if tag in w.tags || !Typed(key.kind, o) then w
    else if key in w.store then
      var m := w.store[key].meta;
      Written(w, key, o.(meta := o.meta.(uid := m.uid, created := m.created, version := tag)), tag)
    else Written(w, key, Stamped(o, tag, w.clock), tag)
  }

  function JobRan(tools: Tools, w: World, key: Key, tag: nat): World {
    if key !in w.store || key.kind != Job || !Typed(Job, w.store[key]) || tag in w.tags then w
    else
      var job := w.store[key];
      var data, backup := Key(Claim, key.namespace, job.spec.dataClaim),
          Key(Claim, key.namespace, job.spec.backupClaim);
      if job.status.completed.Some? || data !in w.volumes || backup !in w.volumes then w
      else
        var status := JobStatus(Some(w.clock), job.status.succeeded + 1, job.status.failed);
        var w' := Written(w, key, Versioned(job.(status := status), tag), tag);
        if job.spec.tool.BackupTool? then w'.(volumes := w.volumes[backup := tools.archive(w.volumes[data])])
        else w'.(volumes := w.volumes[data := tools.unpack(w.volumes[backup])])
  }

  function IsCut(w: World, key: Key): bool {
    && key in w.store && key.kind == Snapshot && w.store[key].spec.SnapshotObject? && key !in w.images
    && Key(Claim, key.namespace, w.store[key].spec.source) in w.volumes
  }

  function Provisioned(w: World, key: Key, blank: Blob): World {
    if key !in w.store || key.kind != Claim || !w.store[key].spec.ClaimObject? || key in w.volumes then w
    else
      var source := SnapshotSource(key, w.store[key].spec.claim);
      if source.None? then w.(volumes := w.volumes[key := blank])
      else if source.value !in w.images then w
      else w.(volumes := w.volumes[key := w.images[source.value]])
  }

  /** The effect of a label that is not the operator's. */
  function Outside(tools: Tools, w: World, l: Label): World
    requires !l.Step? && !l.Crash?
  {
    match l
    case Tick(clock) => if w.clock <= clock then w.(clock := clock) else w
    case Edit(key, o, tag) => Edited(w, key, o, tag)
    case Remove(key) => Removed(w, key)
    case Cut(key) =>
      if IsCut(w, key)
      then w.(images := w.images[key := w.volumes[Key(Claim, key.namespace, w.store[key].spec.source)]]) else w
    case Provision(key, blank) => Provisioned(w, key, blank)
    case Write(key, blob) => if key in w.volumes then w.(volumes := w.volumes[key := blob]) else w
    case RunJob(key, tag) => JobRan(tools, w, key, tag)
    case Enroll(account, password) => w.(passwords := w.passwords[account := password])
  }

  ghost function Do(tools: Tools, s: System, l: Label): System {
    match l
    case Step(req, inp) => Move(s, req, inp)
    case Crash => s.(threads := map[])
    case _ => s.(world := Outside(tools, s.world, l))
  }

  ghost function Exec(tools: Tools, s: System, run: seq<Label>): System
    decreases |run|
  {
    if run == [] then s else Exec(tools, Do(tools, s, run[0]), run[1..])
  }

  lemma {:induction false} ExecAppend(tools: Tools, s: System, a: seq<Label>, b: seq<Label>)
    ensures Exec(tools, s, a + b) == Exec(tools, Exec(tools, s, a), b)
    decreases |a|
  {
    if a == [] {
      assert a + b == b;
    } else {
      assert (a + b)[0] == a[0] && (a + b)[1..] == a[1..] + b;
      ExecAppend(tools, Do(tools, s, a[0]), a[1..], b);
    }
  }

  lemma ExecOne(tools: Tools, s: System, run: seq<Label>, l: Label)
    ensures Exec(tools, s, run + [l]) == Do(tools, Exec(tools, s, run), l)
  {
    hide Do;
    ExecAppend(tools, s, run, [l]);
    assert [l][1..] == [];
  }

  // ------------------------------------------------- optimistic concurrency: what every run keeps

  /** An object in memory is the stored one as long as its version is still current. */
  ghost predicate InStep(w: World, key: Key, o: Object) {
    && o.meta.version in w.tags
    && (key in w.store && w.store[key].meta.version == o.meta.version ==> w.store[key] == o)
  }

  function ClaimIn(o: Object): ClaimSpec {
    if o.spec.ClaimObject? then o.spec.claim
    else if o.spec.SetObject? then o.spec.template
    else ClaimSpec("", None)
  }

  /** The template itself or, for `$(latest)`, the template with another snapshot name or none. */
  predicate FromTemplate(claim: ClaimSpec, template: ClaimSpec) {
    if template.source.None? || template.source.value.name != "$(latest)" then claim == template
    else
      && claim.shape == template.shape
      && (claim.source.Some? ==> claim.source.value == template.source.value.(name := claim.source.value.name))
  }

  predicate Drafted(req: Key, st: Stage, cr: Object, o: Object)
    requires Fits(req.kind, st, cr) && IsUpsert(st)
  {
    && o == Fresh(req, st, cr, ClaimIn(o))
    && (st.ServiceClaim? || st.Set? ==> FromTemplate(ClaimIn(o), cr.spec.pod.claim))
  }

  ghost predicate ThreadOk(w: World, req: Key, pc: Pc) {
    && Ready(req.kind, pc) && !pc.Finished?
    && (pc.At? || pc.Creating? || pc.Updating? ==> InStep(w, req, pc.cr))
    && (pc.Creating? ==> Drafted(req, pc.stage, pc.cr, pc.obj))
    && (pc.Updating? ==> InStep(w, Target(req, pc.stage), pc.seen))
  }

  ghost predicate Sound(s: System) {
    && (forall key :: key in s.world.store ==> s.world.store[key].meta.version in s.world.tags)
    && (forall req :: req in s.threads ==> ThreadOk(s.world, req, s.threads[req]))
  }

  /** Whatever changed in the store carries a version that was never handed out before. */
  ghost predicate Renews(w: World, w': World) {
    && w.tags <= w'.tags
    && forall key :: key in w'.store ==>
         || (key in w.store && w'.store[key] == w.store[key])
         || (w'.store[key].meta.version !in w.tags && w'.store[key].meta.version in w'.tags)
  }

  lemma PerformRenews(w: World, call: Call, inp: Input)
    ensures Renews(w, Perform(w, call, inp).world)
  {
  }

  lemma OutsideRenews(tools: Tools, w: World, l: Label)
    requires !l.Step? && !l.Crash?
    ensures Renews(w, Outside(tools, w, l))
  {
    hide SnapshotSource, Typed;
  }

  /** An object that a call returns is the one now stored. */
  lemma ReplyIsStored(w: World, call: Call, inp: Input, key: Key)
    requires call == Get(key)
             || (call.Create? && call.key == key) || (call.Replace? && call.key == key)
             || (call.ReplaceStatus? && call.key == key)
    ensures var a := Perform(w, call, inp);
            a.reply.Found? ==> key in a.world.store && a.world.store[key] == a.reply.obj
  {
  }

  lemma InStepKept(w: World, w': World, key: Key, o: Object)
    requires Renews(w, w') && InStep(w, key, o)
    ensures InStep(w', key, o)
  {
  }

  /** Resolving changes nothing unless the template asks for `$(latest)`; then it replaces at most the name, and
      leaves no data source if the listing has failed or is empty. */
  lemma ResolveKeepsTemplate(template: ClaimSpec, listing: Option<seq<Item>>)
    ensures FromTemplate(Resolve(template, listing), template)
    ensures template.source.Some? && template.source.value.name == "$(latest)"
            && (listing.None? || listing.value == []) ==>
              Resolve(template, listing) == ClaimSpec(template.shape, None)
  {
  }

  lemma ThreadKept(w: World, w': World, req: Key, pc: Pc)
    requires Renews(w, w') && ThreadOk(w, req, pc)
    ensures ThreadOk(w', req, pc)
  {
  }

  /** The custom resource in memory after a transition is the old one or the one just returned. */
  lemma CrAfter(req: Key, pc: Pc, reply: Reply)
    requires Ready(req.kind, pc) && !pc.Finished?
    ensures var next := Resume(req, pc, reply);
            next.At? || next.Creating? || next.Updating? ==>
              || (!pc.Start? && next.cr == pc.cr)
              || (reply.Found? && next.cr == reply.obj
                  && (pc.Start? || (pc.At? && CallOf(req, pc).ReplaceStatus?)
                      || (pc.At? && pc.stage.UpdateCr?)))
  {
    hide Fresh, Resolve, Adjusted, Continued;
    if pc.At? && !IsUpsert(pc.stage) && !pc.stage.BackupLookup? && !pc.stage.RestoreLookup? {
      CrContinues(req, pc.stage, pc.cr, reply);
    }
  }

  lemma CrContinues(req: Key, st: Stage, cr: Object, reply: Reply)
    requires Fits(req.kind, st, cr) && !IsUpsert(st) && !st.BackupLookup? && !st.RestoreLookup?
    ensures var next := Continued(req, st, cr, reply);
            next.At? || next.Creating? || next.Updating? ==>
              || next.cr == cr
              || (reply.Found? && next.cr == reply.obj && (CallOf(req, At(st, cr)).ReplaceStatus? || st.UpdateCr?))
  {
    hide Fresh, Resolve, SortByCreation, TooSoon, FormatInt;
  }

  lemma FreshIsDrafted(req: Key, st: Stage, cr: Object, claim: ClaimSpec)
    requires Fits(req.kind, st, cr) && IsUpsert(st)
    requires st.ServiceClaim? || st.Set? ==> FromTemplate(claim, cr.spec.pod.claim)
    ensures Drafted(req, st, cr, Fresh(req, st, cr, claim))
  {
  }

  /** Objects are drafted by an upsert that found nothing, or after the listing that follows it. */
  lemma DraftSource(req: Key, pc: Pc, reply: Reply)
    requires Ready(req.kind, pc) && !pc.Finished?
    ensures var next := Resume(req, pc, reply);
            next.Creating? || next.Updating? ==>
              && pc.At? && next.cr == pc.cr
              && (IsUpsert(pc.stage) || pc.stage.ServiceClaimList? || pc.stage.SetList?)
  {
    hide Scheduled, Synchronised, Fresh, Resolve;
  }

  /** What a transition drafts is built from the custom resource in memory, and what it is about to
      change is what it has just read. */
  lemma DraftAfter(req: Key, pc: Pc, reply: Reply)
    requires Ready(req.kind, pc) && !pc.Finished?
    ensures var next := Resume(req, pc, reply);
            && (next.Creating? ==> Drafted(req, next.stage, next.cr, next.obj))
            && (next.Updating? ==>
                  && reply.Found? && next.seen == reply.obj
                  && CallOf(req, pc) == Get(Target(req, next.stage)))
  {
    hide Continued, Upserted, Looked, Fresh, Drafted, Target;
    DraftSource(req, pc, reply);
    if pc.At? && IsUpsert(pc.stage) {
      DraftByUpsert(req, pc.stage, pc.cr, reply);
    } else if pc.At? && (pc.stage.ServiceClaimList? || pc.stage.SetList?) {
      DraftByListing(req, pc.stage, pc.cr, reply);
    }
  }

  lemma DraftByUpsert(req: Key, st: Stage, cr: Object, reply: Reply)
    requires Fits(req.kind, st, cr) && IsUpsert(st)
    ensures var next := Upserted(req, st, cr, reply);
            && (next.Creating? ==> Drafted(req, next.stage, next.cr, next.obj))
            && (next.Updating? ==> reply.Found? && next.seen == reply.obj && next.stage == st)
  {
    hide Fresh, Resolve, FromTemplate, Drafted, Adjusted;
    if reply.Missing? {
      FreshIsDrafted(req, st, cr, cr.spec.pod.claim);
    }
  }

  lemma DraftByListing(req: Key, st: Stage, cr: Object, reply: Reply)
    requires Fits(req.kind, st, cr) && (st.ServiceClaimList? || st.SetList?)
    ensures var next := Continued(req, st, cr, reply);
            next.Creating? && Drafted(req, next.stage, next.cr, next.obj)
  {
    hide Fresh, Resolve, FromTemplate, Drafted;
    var listed := if reply.Listed? then Some(reply.items) else None;
    ResolveKeepsTemplate(cr.spec.pod.claim, listed);
    FreshIsDrafted(req, if st.SetList? then Set else ServiceClaim(st.ordinal), cr, Resolve(cr.spec.pod.claim, listed));
  }

  lemma MovedThreadOk(w: World, req: Key, pc: Pc, inp: Input)
    requires ThreadOk(w, req, pc)
    requires forall key :: key in w.store ==> w.store[key].meta.version in w.tags
    ensures var a := Perform(w, CallOf(req, pc), inp);
            var next := Resume(req, pc, a.reply);
            next.Finished? || ThreadOk(a.world, req, next)
  {
    hide Perform, Resume, Fresh, Adjusted;
    var a := Perform(w, CallOf(req, pc), inp);
    var next := Resume(req, pc, a.reply);
    PerformRenews(w, CallOf(req, pc), inp);
    CrAfter(req, pc, a.reply);
    DraftAfter(req, pc, a.reply);
    if next.At? || next.Creating? || next.Updating? {
      if a.reply.Found? && next.cr == a.reply.obj
          && (pc.Start? || (pc.At? && (CallOf(req, pc).ReplaceStatus? || pc.stage.UpdateCr?))) {
        ReplyIsStored(w, CallOf(req, pc), inp, req);
      } else {
        InStepKept(w, a.world, req, pc.cr);
      }
      if next.Updating? {
        ReplyIsStored(w, CallOf(req, pc), inp, Target(req, next.stage));
      }
    }
  }

  /** Every label keeps the system sound, whatever the cluster and its users do. */
  lemma SoundKept(tools: Tools, s: System, l: Label)
    requires Sound(s)
    ensures Sound(Do(tools, s, l))
  {
    var s' := Do(tools, s, l);
    if l.Step? {
      var pc := PcOf(s, l.req);
      assert ThreadOk(s.world, l.req, pc);
      PerformRenews(s.world, CallOf(l.req, pc), l.inp);
      MovedThreadOk(s.world, l.req, pc, l.inp);
    } else if !l.Crash? {
      OutsideRenews(tools, s.world, l);
    }
    forall req | req in s'.threads
      ensures ThreadOk(s'.world, req, s'.threads[req])
    {
      if !(l.Step? && l.req == req) {
        ThreadKept(s.world, s'.world, req, s.threads[req]);
      }
    }
  }

  lemma {:induction false} SoundRuns(tools: Tools, s: System, run: seq<Label>)
    requires Sound(s)
    ensures Sound(Exec(tools, s, run))
    decreases |run|
  {
    if run == [] {
    } else {
      SoundKept(tools, s, run[0]);
      SoundRuns(tools, Do(tools, s, run[0]), run[1..]);
    }
  }

  // --------------------------------------------------------------- what one call can change

  /** The custom resource that a stage writes back, if it writes one. */
  function WrittenBack(st: Stage, cr: Object): Object {
    match st
    case BackupStatus(times) => cr.(status := times)
    case RestoreStatus(times, _) => cr.(status := times)
    case SnapFirst(now) => cr.(status := ServiceStatus(now))
    case SnapStatus(now) => cr.(status := ServiceStatus(now))
    case UpdateCr(annotations) => cr.(meta := cr.meta.(annotations := annotations))
    case _ => cr
  }

  ghost predicate Effect(w: World, req: Key, pc: Pc, inp: Input, w': World)
    requires Ready(req.kind, pc)
  {
    || w' == w
    || (&& pc.Creating? && Target(req, pc.stage) !in w.store && inp.tag !in w.tags
        && w' == Written(w, Target(req, pc.stage), Stamped(pc.obj, inp.tag, w.clock), inp.tag))
    || (&& pc.Updating? && inp.tag !in w.tags
        && Target(req, pc.stage) in w.store && w.store[Target(req, pc.stage)] == pc.seen
        && w' == Written(w, Target(req, pc.stage),
                         Versioned(Adjusted(req, pc.stage, pc.cr, pc.seen), inp.tag), inp.tag))
    || (&& pc.At? && inp.tag !in w.tags && req in w.store && w.store[req] == pc.cr
        && w' == Written(w, req, Versioned(WrittenBack(pc.stage, pc.cr), inp.tag), inp.tag))
    || (&& pc.At? && pc.stage.Prune?
        && Key(Snapshot, req.namespace, pc.stage.items[pc.stage.index].name) in w.store
        && w' == Removed(w, Key(Snapshot, req.namespace, pc.stage.items[pc.stage.index].name)))
    || (&& pc.At? && pc.stage.PassSet?
        && w' == w.(passwords := w'.passwords)
        && w'.passwords.Keys == w.passwords.Keys)
  }

  lemma PutEffect(w: World, key: Key, o: Object, target: Object, inp: Input)
    requires InStep(w, key, o) && key in w.store
    requires target.meta == o.meta.(annotations := target.meta.annotations, owners := target.meta.owners)
    ensures var w' := Put(w, key, o.meta.version, target, inp).world;
            || w' == w
            || (inp.tag !in w.tags && w.store[key] == o && w' == Written(w, key, Versioned(target, inp.tag), inp.tag))
  {
  }

  lemma UpdateEffect(w: World, req: Key, pc: Pc, inp: Input)
    requires ThreadOk(w, req, pc) && pc.Updating?
    ensures Effect(w, req, pc, inp, Perform(w, CallOf(req, pc), inp).world)
  {
    var key, o := Target(req, pc.stage), Adjusted(req, pc.stage, pc.cr, pc.seen);
    if key in w.store && w.store[key].meta.version == pc.seen.meta.version {
      assert Merged(w.store[key], o) == o;
      PutEffect(w, key, pc.seen, o, inp);
    }
  }

  lemma AtEffect(w: World, req: Key, pc: Pc, inp: Input)
    requires ThreadOk(w, req, pc) && pc.At?
    ensures Effect(w, req, pc, inp, Perform(w, CallOf(req, pc), inp).world)
  {
    hide Fresh, Adjusted, Drafted, StandardLabels;
    var call := CallOf(req, pc);
    if call.ReplaceStatus? || call.Replace? {
      assert call.key == req && call.obj == WrittenBack(pc.stage, pc.cr);
      if req in w.store && w.store[req].meta.version == pc.cr.meta.version {
        PutEffect(w, req, pc.cr, call.obj, inp);
      }
    }
  }

  /** A call of the operator creates its target as drafted, adjusts it as just read, writes back the
      status or the annotations of its own custom resource, prunes a listed snapshot, or sets a password. */
  lemma StepEffect(w: World, req: Key, pc: Pc, inp: Input)
    requires ThreadOk(w, req, pc)
    ensures Effect(w, req, pc, inp, Perform(w, CallOf(req, pc), inp).world)
  {
    if pc.Updating? {
      UpdateEffect(w, req, pc, inp);
    } else if pc.At? {
      AtEffect(w, req, pc, inp);
    }
  }
}
