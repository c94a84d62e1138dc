/** Undisturbed and without failures, backups and restores settle after two reconciles. */
module Convergence {
  import opened Text
  import opened Naming
  import opened Cluster
  import opened Listing
  import opened Controllers
  import opened Pruning

  /** Every call succeeds, with uids and versions never used before. */
  ghost predicate Good(w: World, inputs: seq<Input>) {
    && (forall i :: 0 <= i < |inputs| ==> inputs[i].fate == Success && inputs[i].tag !in w.tags)
    && (forall i, j :: 0 <= i < j < |inputs| ==> inputs[i].tag != inputs[j].tag)
  }

  ghost predicate WellTyped(w: World) {
    forall key :: key in w.store ==> Typed(key.kind, w.store[key])
  }

  /** The world changed at one key at most, by a call whose input is used up. */
  ghost predicate ChangedAt(w: World, w': World, key: Key) {
    && w' == w.(store := w'.store, tags := w'.tags)
    && (forall k :: k != key ==> (k in w'.store <==> k in w.store) && (k in w.store ==> w'.store[k] == w.store[k]))
  }

  lemma UpsertOwnerTwice(owners: seq<OwnerRef>, ref: OwnerRef)
    ensures UpsertOwner(UpsertOwner(owners, ref), ref) == UpsertOwner(owners, ref)
  {
    if owners == [] || (owners[0].kind == ref.kind && owners[0].name == ref.name) {
    } else {
      UpsertOwnerTwice(owners[1..], ref);
    }
  }

  /** The object of an upsert stage is there and has nothing left to adjust. */
  ghost predicate Fixed(w: World, req: Key, st: Stage, cr: Object)
    requires Fits(req.kind, st, cr) && IsUpsert(st)
  {
    var key := Target(req, st);
    key in w.store && Typed(key.kind, w.store[key]) && Adjusted(req, st, cr, w.store[key]) == w.store[key]
  }

  predicate Simple(st: Stage) {
    IsUpsert(st) && (StageKind(st) == DirectoryBackup || StageKind(st) == DirectoryRestore)
  }

  lemma FreshIsFixed(req: Key, st: Stage, cr: Object, tag: nat, clock: nat)
    requires Fits(req.kind, st, cr) && Simple(st)
    ensures var o := Stamped(Fresh(req, st, cr, cr.spec.pod.claim), tag, clock);
            Typed(TargetKind(st), o) && Adjusted(req, st, cr, o) == o
  {
    FreshTyped(req, st, cr);
    if st.BackupSnapshot? || st.BackupClone? {
      FreshOwned(req, st, cr);
    }
    hide Fresh;
  }

  lemma FreshTyped(req: Key, st: Stage, cr: Object)
    requires Fits(req.kind, st, cr) && Simple(st)
    ensures Typed(TargetKind(st), Fresh(req, st, cr, cr.spec.pod.claim))
  {
    hide StandardLabels, Target, Owner;
  }

  lemma FreshOwned(req: Key, st: Stage, cr: Object)
    requires Fits(req.kind, st, cr) && (st.BackupSnapshot? || st.BackupClone?)
    ensures Fresh(req, st, cr, cr.spec.pod.claim).meta.owners == [Owner(req, cr, false)]
  {
  }

  lemma AdjustedIsFixed(req: Key, st: Stage, cr: Object, o: Object, tag: nat)
    requires Fits(req.kind, st, cr) && Simple(st) && Typed(TargetKind(st), o)
    ensures var o' := Versioned(Adjusted(req, st, cr, o), tag);
            && Typed(TargetKind(st), o') && Adjusted(req, st, cr, o') == o'
            && Merged(o, Adjusted(req, st, cr, o)) == Adjusted(req, st, cr, o)
            && o'.spec == o.spec && o'.status == o.status && o'.meta.created == o.meta.created
  {
    UpsertOwnerTwice(o.meta.owners, Owner(req, cr, false));
  }

  lemma GoodTail(w: World, w': World, inputs: seq<Input>, n: nat)
    requires Good(w, inputs) && n <= |inputs|
    requires w'.tags <= w.tags + set i | 0 <= i < n :: inputs[i].tag
    ensures Good(w', inputs[n..])
  {
    forall i | 0 <= i < |inputs[n..]|
      ensures inputs[n..][i].fate == Success && inputs[n..][i].tag !in w'.tags
    {
      assert inputs[n..][i] == inputs[n + i];
    }
  }

  lemma DriveTwo(w: World, req: Key, pc: Pc, inputs: seq<Input>)
    requires Ready(req.kind, pc) && !pc.Finished? && |inputs| >= 2
    ensures var a := Perform(w, CallOf(req, pc), inputs[0]);
            var next := Resume(req, pc, a.reply);
            !next.Finished? ==>
              var b := Perform(a.world, CallOf(req, next), inputs[1]);
              Drive(w, req, pc, inputs) == Drive(b.world, req, Resume(req, next, b.reply), inputs[2..])
  {
    hide Perform, CallOf, Resume;
    assert inputs[1..][0] == inputs[1] && inputs[1..][1..] == inputs[2..];
  }

  /** What an upsert that goes through makes of the world; `tag` is that of its second call. */
  function Ensured(w: World, req: Key, st: Stage, cr: Object, tag: nat): World
    requires Fits(req.kind, st, cr) && Simple(st)
  {
    var key := Target(req, st);
    if key !in w.store then Written(w, key, Stamped(Fresh(req, st, cr, cr.spec.pod.claim), tag, w.clock), tag)
    else if !Typed(TargetKind(st), w.store[key]) || Adjusted(req, st, cr, w.store[key]) == w.store[key] then w
    else Written(w, key, Versioned(Adjusted(req, st, cr, w.store[key]), tag), tag)
  }

  lemma DriveFound(w: World, req: Key, st: Stage, cr: Object, inputs: seq<Input>)
    requires Fits(req.kind, st, cr) && Simple(st) && inputs != [] && inputs[0].fate == Success
    requires Fixed(w, req, st, cr)
    ensures Drive(w, req, At(st, cr), inputs) == Drive(w, req, Proceed(st, cr), inputs[1..])
  {
    hide Fresh, Proceed, Adjusted;
    assert CallOf(req, At(st, cr)) == Get(Target(req, st));
  }

  lemma DriveCreates(w: World, req: Key, st: Stage, cr: Object, inputs: seq<Input>)
    requires Fits(req.kind, st, cr) && Simple(st) && Good(w, inputs) && |inputs| >= 2
    requires Target(req, st) !in w.store
    ensures Drive(w, req, At(st, cr), inputs)
            == Drive(Ensured(w, req, st, cr, inputs[1].tag), req, Proceed(st, cr), inputs[2..])
  {
    hide Fresh, Proceed, Adjusted, Drive;
    assert CallOf(req, At(st, cr)) == Get(Target(req, st));
    DriveTwo(w, req, At(st, cr), inputs);
  }

  lemma DriveUpdates(w: World, req: Key, st: Stage, cr: Object, inputs: seq<Input>)
    requires Fits(req.kind, st, cr) && Simple(st) && Good(w, inputs) && |inputs| >= 2
    requires Target(req, st) in w.store && Typed(TargetKind(st), w.store[Target(req, st)]) && !Fixed(w, req, st, cr)
    ensures Drive(w, req, At(st, cr), inputs)
            == Drive(Ensured(w, req, st, cr, inputs[1].tag), req, Proceed(st, cr), inputs[2..])
  {
    hide Fresh, Proceed, Drive;
    var key := Target(req, st);
    assert CallOf(req, At(st, cr)) == Get(key);
    AdjustedIsFixed(req, st, cr, w.store[key], inputs[1].tag);
    UpdatePerformed(w, key, Adjusted(req, st, cr, w.store[key]), inputs[1]);
    DriveTwo(w, req, At(st, cr), inputs);
  }

  lemma WrittenFixed(w: World, req: Key, st: Stage, cr: Object, o: Object, tag: nat)
    requires Fits(req.kind, st, cr) && Simple(st) && WellTyped(w)
    requires Typed(TargetKind(st), o) && Adjusted(req, st, cr, o) == o
    ensures var w', key := Written(w, Target(req, st), o, tag), Target(req, st);
            && Fixed(w', req, st, cr) && ChangedAt(w, w', key) && WellTyped(w')
            && w'.tags <= w.tags + {tag} && w'.store[key] == o
  {
    hide Adjusted, Target, TargetKind, WellTyped, Typed, Fits;
    WrittenWellTyped(w, Target(req, st), o, tag);
  }

  lemma WrittenWellTyped(w: World, key: Key, o: Object, tag: nat)
    requires WellTyped(w) && Typed(key.kind, o)
    ensures WellTyped(Written(w, key, o, tag))
  {
    hide Typed;
  }

  lemma EnsuredFixes(w: World, req: Key, st: Stage, cr: Object, tag: nat)
    requires Fits(req.kind, st, cr) && Simple(st) && WellTyped(w)
    ensures var w', key := Ensured(w, req, st, cr, tag), Target(req, st);
            && Fixed(w', req, st, cr) && ChangedAt(w, w', key) && WellTyped(w')
            && w'.tags <= w.tags + {tag}
            && (key in w.store ==>
                  && key in w'.store && w'.store[key].spec == w.store[key].spec
                       && w'.store[key].status == w.store[key].status
                  && w'.store[key].meta.created == w.store[key].meta.created)
  {
    hide Fresh, Adjusted, Target;
    var key := Target(req, st);
    if key !in w.store {
      FreshIsFixed(req, st, cr, tag, w.clock);
      hide WellTyped, ChangedAt, Fixed, Written;
      WrittenFixed(w, req, st, cr, Stamped(Fresh(req, st, cr, cr.spec.pod.claim), tag, w.clock), tag);
    } else {
      assert Typed(key.kind, w.store[key]);
      if Adjusted(req, st, cr, w.store[key]) != w.store[key] {
        AdjustedIsFixed(req, st, cr, w.store[key], tag);
        hide WellTyped, ChangedAt, Fixed, Written;
        WrittenFixed(w, req, st, cr, Versioned(Adjusted(req, st, cr, w.store[key]), tag), tag);
      }
    }
  }

  /** An upsert that goes through: one call if there is nothing to do, two otherwise. */
  lemma UpsertStep(w: World, req: Key, st: Stage, cr: Object, inputs: seq<Input>) returns (w': World, rest: seq<Input>)
    requires Fits(req.kind, st, cr) && Simple(st) && Good(w, inputs) && |inputs| >= 2 && WellTyped(w)
    ensures Drive(w, req, At(st, cr), inputs) == Drive(w', req, Proceed(st, cr), rest)
    ensures Good(w', rest) && |rest| >= |inputs| - 2
    ensures w' == Ensured(w, req, st, cr, inputs[1].tag)
  {
    var key := Target(req, st);
    hide Fresh, Drive, Proceed, Adjusted;
    w' := Ensured(w, req, st, cr, inputs[1].tag);
    if Fixed(w, req, st, cr) {
      rest := inputs[1..];
      DriveFound(w, req, st, cr, inputs);
      GoodTail(w, w', inputs, 1);
    } else {
      rest := inputs[2..];
      GoodTail(w, w', inputs, 2);
      if key in w.store {
        DriveUpdates(w, req, st, cr, inputs);
      } else {
        DriveCreates(w, req, st, cr, inputs);
      }
    }
  }

  lemma UpdatePerformed(w: World, key: Key, o: Object, inp: Input)
    requires key in w.store && o.meta.version == w.store[key].meta.version && Merged(w.store[key], o) == o
    requires o != w.store[key] && inp.fate == Success && inp.tag !in w.tags
    ensures var a := Perform(w, Replace(key, o), inp);
            a.world == Written(w, key, Versioned(o, inp.tag), inp.tag) && a.reply.Found?
  {
  }

  /** Writing the status: nothing happens if it is right already. */
  function Reported(w: World, req: Key, cr: Object, times: Status, tag: nat): World {
    if cr.status == times then w else Written(w, req, Versioned(cr.(status := times), tag), tag)
  }

  lemma ReportedTags(w: World, req: Key, cr: Object, times: Status, tag: nat)
    ensures Reported(w, req, cr, times, tag).tags <= w.tags + {tag}
  {
  }

  lemma StatusPerformed(w: World, req: Key, cr: Object, times: Status, inp: Input)
    requires req in w.store && w.store[req] == cr && inp.fate == Success && inp.tag !in w.tags
    ensures var w' := Reported(w, req, cr, times, inp.tag);
            req in w'.store && w'.store[req].spec == cr.spec && w'.store[req].status == times
            && Perform(w, ReplaceStatus(req, cr.(status := times)), inp) == Answer(w', Found(w'.store[req]))
  {
  }

  lemma StatusStep(w: World, req: Key, st: Stage, cr: Object, inputs: seq<Input>)
    requires Fits(req.kind, st, cr) && (st.BackupStatus? || st.RestoreStatus?)
    requires Good(w, inputs) && inputs != [] && req in w.store && w.store[req] == cr
    ensures var w' := Reported(w, req, cr, st.times, inputs[0].tag);
            && req in w'.store && Typed(req.kind, w'.store[req]) && Good(w', inputs[1..])
            && Drive(w, req, At(st, cr), inputs)
               == Drive(w', req, At(if st.BackupStatus? then BackupClaim
                   else RestoreClaim(st.finished), w'.store[req]), inputs[1..])
  {
    hide Perform, CallOf, Resume, Reported;
    StatusTurn(req, st, cr);
    StatusPerformed(w, req, cr, st.times, inputs[0]);
    ReportedTags(w, req, cr, st.times, inputs[0].tag);
    GoodTail(w, Reported(w, req, cr, st.times, inputs[0].tag), inputs, 1);
  }

  lemma StatusTurn(req: Key, st: Stage, cr: Object)
    requires Fits(req.kind, st, cr) && (st.BackupStatus? || st.RestoreStatus?)
    ensures CallOf(req, At(st, cr)) == ReplaceStatus(req, cr.(status := st.times))
    ensures forall o :: Typed(req.kind, o) ==>
              Resume(req, At(st, cr), Found(o))
                  == At(if st.BackupStatus? then BackupClaim else RestoreClaim(st.finished), o)
  {
    hide Fresh, Upserted, Looked, Scheduled, Synchronised, Resolve;
  }

  // ------------------------------------------------------------------------------ whole reconciles

  /** The times that a reconcile reads off its job. */
  function Times(w: World, req: Key): Status
    requires req in w.store && w.store[req].status.RunTimes?
  {
    if JobKey(req) !in w.store || !Typed(Job, w.store[JobKey(req)]) then w.store[req].status
    else
      var job := w.store[JobKey(req)];
      RunTimes(Some(job.meta.created),
               if job.status.completed.Some? then job.status.completed else w.store[req].status.completion)
  }

  lemma FixedKept(w: World, w': World, req: Key, st: Stage, cr: Object, cr': Object, key: Key)
    requires Fits(req.kind, st, cr) && Fits(req.kind, st, cr') && Simple(st) && Fixed(w, req, st, cr)
    requires ChangedAt(w, w', key) && Target(req, st) != key && cr'.meta.uid == cr.meta.uid
    ensures Fixed(w', req, st, cr')
  {
  }

  lemma ReportedKeeps(w: World, req: Key, cr: Object, times: Status, tag: nat)
    requires WellTyped(w) && req in w.store && w.store[req] == cr && cr.status.RunTimes? && times.RunTimes?
    ensures var w' := Reported(w, req, cr, times, tag);
            && ChangedAt(w, w', req) && WellTyped(w')
            && req in w'.store && w'.store[req].status == times && w'.store[req].meta.uid == cr.meta.uid
            && w'.store[req].spec == cr.spec
  {
  }

  lemma SettledFollows(w: World, req: Key, st: Stage, cr: Object, tag: nat)
    requires Fits(req.kind, st, cr) && Simple(st) && Fixed(w, req, st, cr)
    ensures Ensured(w, req, st, cr, tag) == w
  {
  }

  /** All the objects of a backup are there with nothing left to adjust. */
  ghost predicate BackupFixed(w: World, b: Key)
    requires b.kind == DirectoryBackup && b in w.store && Typed(b.kind, w.store[b])
  {
    FirstFixed(w, b, w.store[b]) && SecondFixed(w, b, w.store[b])
  }

  lemma BackupOpens(w: World, b: Key, inputs: seq<Input>)
    requires b.kind == DirectoryBackup && Good(w, inputs) && |inputs| >= 2 && WellTyped(w) && b in w.store
    ensures Drive(w, b, Start, inputs) == Drive(w, b, At(BackupStatus(Times(w, b)), w.store[b]), inputs[2..])
  {
    hide Drive, Fresh;
    var cr := w.store[b];
    assert Typed(b.kind, cr);
    assert Resume(b, Start, Found(cr)) == At(BackupLookup, cr);
    if JobKey(b) in w.store {
      assert Typed(Job, w.store[JobKey(b)]);
    }
    DriveTwo(w, b, Start, inputs);
  }

  lemma NewJobStatus(w: World, req: Key, st: Stage, cr: Object, tag: nat)
    requires Fits(req.kind, st, cr) && Simple(st)
    ensures var w' := Ensured(w, req, st, cr, tag);
            Target(req, st) == JobKey(req) ==>
              JobKey(req) in w'.store && (JobKey(req) !in w.store ==>
                  w'.store[JobKey(req)].status == JobStatus(None, 0, 0))
  {
  }

  /** What an upsert has made of its target: the drafted object if there was none, otherwise the old one or the
      old one adjusted. */
  ghost predicate Made(w: World, w': World, req: Key, st: Stage, cr: Object)
    requires Fits(req.kind, st, cr) && Simple(st)
  {
    var key := Target(req, st);
    && key in w'.store
    && (key !in w.store ==>
          exists tag :: w'.store[key] == Stamped(Fresh(req, st, cr, cr.spec.pod.claim), tag, w.clock))
    && (key in w.store && Typed(key.kind, w.store[key]) ==>
          || (w'.store[key] == w.store[key] && Adjusted(req, st, cr, w.store[key]) == w.store[key])
          || (&& Adjusted(req, st, cr, w.store[key]) != w.store[key]
              && exists tag :: w'.store[key] == Versioned(Adjusted(req, st, cr, w.store[key]), tag)))
  }

  lemma EnsuredMakes(w: World, req: Key, st: Stage, cr: Object, tag: nat)
    requires Fits(req.kind, st, cr) && Simple(st)
    ensures Made(w, Ensured(w, req, st, cr, tag), req, st, cr)
  {
    hide Fresh, Adjusted, Target;
  }

  /** It is left like that by what happens elsewhere, before or after. */
  lemma MadeElsewhere(w: World, w1: World, w': World, req: Key, st: Stage, cr: Object, key: Key)
    requires Fits(req.kind, st, cr) && Simple(st) && Target(req, st) != key
    requires (Made(w, w1, req, st, cr) && ChangedAt(w1, w', key))
             || (ChangedAt(w, w1, key) && Made(w1, w', req, st, cr))
    ensures Made(w, w', req, st, cr)
  {
    hide Fresh, Adjusted, Target;
  }

  /** Drafts and adjustments depend on the spec and the identity of the custom resource. */
  lemma MadeAlike(w: World, w': World, req: Key, st: Stage, cr: Object, cr': Object)
    requires Fits(req.kind, st, cr) && Fits(req.kind, st, cr') && Simple(st) && Made(w, w', req, st, cr')
    requires cr'.spec == cr.spec && cr'.meta.uid == cr.meta.uid
    ensures Made(w, w', req, st, cr)
  {
    hide Fresh, Adjusted, Target;
    FreshAlike(req, st, cr, cr');
    AdjustedAlike(req, st, cr, cr');
  }

  lemma FreshAlike(req: Key, st: Stage, cr: Object, cr': Object)
    requires Fits(req.kind, st, cr) && Fits(req.kind, st, cr') && Simple(st)
    requires cr'.spec == cr.spec && cr'.meta.uid == cr.meta.uid
    ensures Fresh(req, st, cr, cr.spec.pod.claim) == Fresh(req, st, cr', cr'.spec.pod.claim)
  {
    hide StandardLabels, Target;
  }

  lemma AdjustedAlike(req: Key, st: Stage, cr: Object, cr': Object)
    requires Fits(req.kind, st, cr) && Fits(req.kind, st, cr') && Simple(st)
    requires cr'.spec == cr.spec && cr'.meta.uid == cr.meta.uid
    ensures forall o :: Typed(TargetKind(st), o) ==> Adjusted(req, st, cr, o) == Adjusted(req, st, cr', o)
  {
    hide UpsertOwner;
  }

  /** Nothing differs but at these keys. */
  ghost predicate Within(w: World, w': World, keys: set<Key>) {
    && w' == w.(store := w'.store, tags := w'.tags)
    && forall k :: k !in keys ==> (k in w'.store <==> k in w.store) && (k in w.store ==> w'.store[k] == w.store[k])
  }

  /** One upsert of a custom resource that stays as it is. */
  lemma PartStep(w: World, req: Key, st: Stage, cr: Object, inputs: seq<Input>) returns (w': World, rest: seq<Input>)
    requires Fits(req.kind, st, cr) && Simple(st) && Good(w, inputs) && |inputs| >= 2 && WellTyped(w)
    requires req in w.store && w.store[req] == cr
    ensures Drive(w, req, At(st, cr), inputs) == Drive(w', req, Proceed(st, cr), rest)
    ensures Good(w', rest) && |rest| >= |inputs| - 2 && WellTyped(w')
    ensures Fixed(w', req, st, cr) && ChangedAt(w, w', Target(req, st))
    ensures Fixed(w, req, st, cr) ==> w' == w
    ensures req in w'.store && w'.store[req] == cr && JobKept(w, w', req)
    ensures JobKey(req) in w'.store ==> JobKey(req) in w.store || Target(req, st) == JobKey(req)
    ensures Target(req, st) == JobKey(req) ==>
              JobKey(req) in w'.store && (JobKey(req) !in w.store ==>
                  w'.store[JobKey(req)].status == JobStatus(None, 0, 0))
    ensures Made(w, w', req, st, cr)
  {
    EnsuredMakes(w, req, st, cr, inputs[1].tag);
    hide Ensured, Fixed, Drive, Proceed, WellTyped, Good, ChangedAt, JobKept, Target, Made;
    NewJobStatus(w, req, st, cr, inputs[1].tag);
    w', rest := UpsertStep(w, req, st, cr, inputs);
    EnsuredFixes(w, req, st, cr, inputs[1].tag);
    ChangesOnlyTarget(w, w', req, st);
    if Fixed(w, req, st, cr) {
      SettledFollows(w, req, st, cr, inputs[1].tag);
    }
  }

  /** An upsert leaves the custom resource alone, and a job that is there. */
  lemma ChangesOnlyTarget(w: World, w': World, req: Key, st: Stage)
    requires Simple(st) && StageKind(st) == req.kind && ChangedAt(w, w', Target(req, st))
    requires Target(req, st) in w.store ==>
               && Target(req, st) in w'.store
               && w'.store[Target(req, st)].status == w.store[Target(req, st)].status
               && w'.store[Target(req, st)].meta.created == w.store[Target(req, st)].meta.created
    ensures req in w.store ==> req in w'.store && w'.store[req] == w.store[req]
    ensures JobKept(w, w', req)
    ensures JobKey(req) in w'.store ==> JobKey(req) in w.store || Target(req, st) == JobKey(req)
  {
    assert Target(req, st).kind == TargetKind(st) != req.kind;
    hide Target, TargetKind, Simple;
  }

  /** A job that is there stays there, as far as its times go. */
  ghost predicate JobKept(w: World, w': World, req: Key) {
    JobKey(req) in w.store ==>
      && JobKey(req) in w'.store && w'.store[JobKey(req)].status == w.store[JobKey(req)].status
      && w'.store[JobKey(req)].meta.created == w.store[JobKey(req)].meta.created
  }

  lemma TargetsDiffer(b: Key)
    ensures Target(b, BackupClaim) != Target(b, BackupClone)
  {
    TempInjective(b.name, b.name);
  }

  ghost predicate FirstFixed(w: World, b: Key, cr: Object)
    requires b.kind == DirectoryBackup && Typed(b.kind, cr)
  {
    Fixed(w, b, BackupClaim, cr) && Fixed(w, b, BackupSnapshot, cr)
  }

  ghost predicate SecondFixed(w: World, b: Key, cr: Object)
    requires b.kind == DirectoryBackup && Typed(b.kind, cr)
  {
    Fixed(w, b, BackupClone, cr) && Fixed(w, b, BackupJob, cr)
  }

  /** What has been made of these, and that nothing else has changed. */
  ghost predicate FirstMade(w: World, w': World, b: Key, cr: Object)
    requires b.kind == DirectoryBackup && Typed(b.kind, cr)
  {
    && Made(w, w', b, BackupClaim, cr) && Made(w, w', b, BackupSnapshot, cr)
    && Within(w, w', {Target(b, BackupClaim), Target(b, BackupSnapshot)})
  }

  ghost predicate SecondMade(w: World, w': World, b: Key, cr: Object)
    requires b.kind == DirectoryBackup && Typed(b.kind, cr)
  {
    && Made(w, w', b, BackupClone, cr) && Made(w, w', b, BackupJob, cr)
    && Within(w, w', {Target(b, BackupClone), Target(b, BackupJob)})
  }

  /** The backup claim and the snapshot, one after the other. */
  lemma BackupFirst(w: World, b: Key, cr: Object, inputs: seq<Input>) returns (w': World, rest: seq<Input>)
    requires b.kind == DirectoryBackup && Typed(b.kind, cr)
    requires Good(w, inputs) && |inputs| >= 4 && WellTyped(w) && b in w.store && w.store[b] == cr
    ensures Drive(w, b, At(BackupClaim, cr), inputs) == Drive(w', b, At(BackupClone, cr), rest)
    ensures Good(w', rest) && |rest| >= |inputs| - 4 && WellTyped(w') && b in w'.store && w'.store[b] == cr
    ensures FirstFixed(w', b, cr) && JobKept(w, w', b)
    ensures FirstFixed(w, b, cr) ==> w' == w
    ensures FirstMade(w, w', b, cr)
  {
    hide Fixed, Drive, Good, WellTyped, ChangedAt, Made, Within;
    var w1, in1 := PartStep(w, b, BackupClaim, cr, inputs);
    w', rest := PartStep(w1, b, BackupSnapshot, cr, in1);
    FixedKept(w1, w', b, BackupClaim, cr, cr, Target(b, BackupSnapshot));
    MadeElsewhere(w, w1, w', b, BackupClaim, cr, Target(b, BackupSnapshot));
    MadeElsewhere(w, w1, w', b, BackupSnapshot, cr, Target(b, BackupClaim));
    WithinTwo(w, w1, w', Target(b, BackupClaim), Target(b, BackupSnapshot));
  }

  lemma WithinTwo(w: World, w1: World, w': World, a: Key, b: Key)
    requires ChangedAt(w, w1, a) && ChangedAt(w1, w', b)
    ensures Within(w, w', {a, b})
  {
  }

  /** The clone and the job, one after the other. */
  lemma BackupSecond(w: World, b: Key, cr: Object, inputs: seq<Input>) returns (w': World)
    requires b.kind == DirectoryBackup && Typed(b.kind, cr)
    requires Good(w, inputs) && |inputs| >= 4 && WellTyped(w) && b in w.store && w.store[b] == cr
    ensures Drive(w, b, At(BackupClone, cr), inputs) == Stop(Finished(Outcome(0, false)), w')
    ensures WellTyped(w') && b in w'.store && w'.store[b] == cr
    ensures SecondFixed(w', b, cr) && JobKept(w, w', b)
    ensures FirstFixed(w, b, cr) ==> FirstFixed(w', b, cr)
    ensures SecondFixed(w, b, cr) ==> w' == w
    ensures SecondMade(w, w', b, cr)
  {
    hide Fixed, Drive, Good, WellTyped, ChangedAt, Made, Within;
    TargetsDiffer(b);
    var w1, in1 := PartStep(w, b, BackupClone, cr, inputs);
    var w2, in2 := PartStep(w1, b, BackupJob, cr, in1);
    w' := w2;
    DriveFinished(w2, b, Finished(Outcome(0, false)), in2);
    FixedKept(w1, w2, b, BackupClone, cr, cr, Target(b, BackupJob));
    MadeElsewhere(w, w1, w2, b, BackupClone, cr, Target(b, BackupJob));
    MadeElsewhere(w, w1, w2, b, BackupJob, cr, Target(b, BackupClone));
    WithinTwo(w, w1, w2, Target(b, BackupClone), Target(b, BackupJob));
    if FirstFixed(w, b, cr) {
      FixedKept(w, w1, b, BackupClaim, cr, cr, Target(b, BackupClone));
      FixedKept(w1, w2, b, BackupClaim, cr, cr, Target(b, BackupJob));
      FixedKept(w, w1, b, BackupSnapshot, cr, cr, Target(b, BackupClone));
      FixedKept(w1, w2, b, BackupSnapshot, cr, cr, Target(b, BackupJob));
    }
  }

  lemma DriveFinished(w: World, req: Key, pc: Pc, inputs: seq<Input>)
    requires pc.Finished?
    ensures Drive(w, req, pc, inputs) == Stop(pc, w)
  {
  }

  /** One undisturbed reconcile of a backup. */
  lemma BackupReconcile(w: World, b: Key, inputs: seq<Input>) returns (w': World)
    requires b.kind == DirectoryBackup && Good(w, inputs) && |inputs| >= 11 && WellTyped(w) && b in w.store
    ensures Typed(b.kind, w.store[b])
    ensures Drive(w, b, Start, inputs) == Stop(Finished(Outcome(0, false)), w')
    ensures WellTyped(w') && b in w'.store && BackupFixed(w', b)
    ensures JobKey(b) in w.store ==> w'.store[b].status == Times(w', b)
    ensures BackupFixed(w, b) && w.store[b].status == Times(w, b) ==> w' == w
    ensures BackupMade(w, w', b, w.store[b])
    ensures w'.store[b].spec == w.store[b].spec && w'.store[b].status == Times(w, b)
  {
    hide Drive, Fixed, Made, Within, ChangedAt;
    var cr := w.store[b];
    assert Typed(b.kind, cr);
    BackupOpens(w, b, inputs);
    GoodTail(w, w, inputs, 2);
    var rest := inputs[2..];
    StatusStep(w, b, BackupStatus(Times(w, b)), cr, rest);
    var w1 := Reported(w, b, cr, Times(w, b), rest[0].tag);
    ReportedKeeps(w, b, cr, Times(w, b), rest[0].tag);
    var cr1 := w1.store[b];
    var w2, in2 := BackupFirst(w1, b, cr1, rest[1..]);
    w' := BackupSecond(w2, b, cr1, in2);
    BackupPieces(w, w1, w2, w', b, cr, cr1);
  }

  /** What a reconcile has made of the objects of a backup, and that it leaves all others alone. */
  ghost predicate BackupMade(w: World, w': World, b: Key, cr: Object)
    requires b.kind == DirectoryBackup && Typed(b.kind, cr)
  {
    && Made(w, w', b, BackupClaim, cr) && Made(w, w', b, BackupSnapshot, cr)
    && Made(w, w', b, BackupClone, cr) && Made(w, w', b, BackupJob, cr)
    && Within(w, w', {b, Target(b, BackupClaim), Target(b, BackupSnapshot), Target(b, BackupClone),
          Target(b, BackupJob)})
  }

  /** The same for changes at more keys. */
  lemma MadeOutside(w: World, w1: World, w': World, req: Key, st: Stage, cr: Object, keys: set<Key>)
    requires Fits(req.kind, st, cr) && Simple(st) && Target(req, st) !in keys
    requires (Made(w, w1, req, st, cr) && Within(w1, w', keys)) || (Within(w, w1, keys) && Made(w1, w', req, st, cr))
    ensures Made(w, w', req, st, cr)
  {
    hide Fresh, Adjusted, Target;
  }

  lemma WithinBoth(w: World, w1: World, w': World, a: set<Key>, b: set<Key>)
    requires Within(w, w1, a) && Within(w1, w', b)
    ensures Within(w, w', a + b)
  {
  }

  lemma OneIsWithin(w: World, w': World, key: Key)
    requires ChangedAt(w, w', key)
    ensures Within(w, w', {key})
  {
  }

  lemma BackupPieces(w: World, w1: World, w2: World, w': World, b: Key, cr: Object, cr1: Object)
    requires b.kind == DirectoryBackup && Typed(b.kind, cr) && Typed(b.kind, cr1)
    requires cr1.spec == cr.spec && cr1.meta.uid == cr.meta.uid && ChangedAt(w, w1, b)
    requires FirstMade(w1, w2, b, cr1) && SecondMade(w2, w', b, cr1)
    ensures BackupMade(w, w', b, cr)
  {
    hide Made, Within, ChangedAt;
    TargetsDiffer(b);
    var first, second := {Target(b, BackupClaim), Target(b, BackupSnapshot)},
        {Target(b, BackupClone), Target(b, BackupJob)};
    OneIsWithin(w, w1, b);
    WithinBoth(w, w1, w2, {b}, first);
    WithinBoth(w, w2, w', {b} + first, second);
    assert {b} + first + second
           == {b, Target(b, BackupClaim), Target(b, BackupSnapshot), Target(b, BackupClone), Target(b, BackupJob)};
    BackupPiece(w, w1, w2, w', b, BackupClaim, cr, cr1, first, second);
    BackupPiece(w, w1, w2, w', b, BackupSnapshot, cr, cr1, first, second);
    BackupPiece(w, w1, w2, w', b, BackupClone, cr, cr1, first, second);
    BackupPiece(w, w1, w2, w', b, BackupJob, cr, cr1, first, second);
  }

  lemma BackupPiece(
      w: World, w1: World, w2: World, w': World, b: Key, st: Stage, cr: Object, cr1: Object, first: set<Key>,
          second: set<Key>)
    requires b.kind == DirectoryBackup && Fits(b.kind, st, cr) && Fits(b.kind, st, cr1) && Simple(st)
    requires cr1.spec == cr.spec && cr1.meta.uid == cr.meta.uid
    requires Within(w, w1, {b}) && Within(w1, w2, first) && Within(w2, w', second)
    requires (Target(b, st) !in second && Made(w1, w2, b, st, cr1))
             || (Target(b, st) !in first && Made(w2, w', b, st, cr1))
    ensures Made(w, w', b, st, cr)
  {
    hide Made, Within, Target;
    if Target(b, st) !in second && Made(w1, w2, b, st, cr1) {
      MadeOutside(w1, w2, w', b, st, cr1, second);
    } else {
      MadeOutside(w1, w2, w', b, st, cr1, first);
    }
    assert Target(b, st) !in {b};
    MadeOutside(w, w1, w', b, st, cr1, {b});
    MadeAlike(w, w', b, st, cr, cr1);
  }

  /** R R R = R R for backups: with every call succeeding, nobody interfering and job and clock standing
      still, the third reconcile changes nothing any more. */
  lemma BackupSettles(w: World, b: Key, in1: seq<Input>, in2: seq<Input>, in3: seq<Input>)
    requires b.kind == DirectoryBackup && WellTyped(w) && |in1| >= 11 && |in2| >= 11 && |in3| >= 11
    requires Good(w, in1) && Good(Drive(w, b, Start, in1).world, in2)
    requires Good(Drive(Drive(w, b, Start, in1).world, b, Start, in2).world, in3)
    ensures var twice := Drive(Drive(w, b, Start, in1).world, b, Start, in2).world;
            Drive(twice, b, Start, in3).world == twice
  {
    if b in w.store {
      hide Drive, Fixed;
      var w1 := BackupReconcile(w, b, in1);
      var w2 := BackupReconcile(w1, b, in2);
      var w3 := BackupReconcile(w2, b, in3);
      FixedHasJob(w1, b);
    } else {
      NothingToDo(w, b, in1);
      NothingToDo(w, b, in2);
      NothingToDo(w, b, in3);
    }
  }

  lemma FixedHasJob(w: World, b: Key)
    requires b.kind == DirectoryBackup && b in w.store && Typed(b.kind, w.store[b]) && BackupFixed(w, b)
    ensures JobKey(b) in w.store
  {
  }

  lemma NothingToDo(w: World, req: Key, inputs: seq<Input>)
    requires req !in w.store && inputs != [] && inputs[0].fate == Success
    ensures Drive(w, req, Start, inputs).world == w
  {
  }

  // ------------------------------------------------------------------------------------- restores

  predicate JobFailed(w: World, r: Key) {
    && JobKey(r) in w.store && Typed(Job, w.store[JobKey(r)])
    && w.store[JobKey(r)].status.completed.Some? && w.store[JobKey(r)].status.failed > 0
  }

  predicate JobEnded(w: World, r: Key) {
    JobKey(r) in w.store && Typed(Job, w.store[JobKey(r)]) && w.store[JobKey(r)].status.completed.Some?
  }

  predicate JobSucceeded(w: World, r: Key) {
    JobEnded(w, r) && w.store[JobKey(r)].status.succeeded > 0
  }

  lemma SameObjects(w: World, r: Key, cr: Object, ended: bool, times: Status)
    requires r.kind == DirectoryRestore && Typed(r.kind, cr) && times.RunTimes?
    ensures Fixed(w, r, RestoreClaim(ended), cr) <==> Fixed(w, r, RestoreClaim(true), cr)
    ensures Fixed(w, r, RestoreJob(ended), cr) <==> Fixed(w, r, RestoreJob(true), cr)
    ensures Fixed(w, r, RestoreSnapshot(times), cr) <==> Fixed(w, r, RestoreSnapshot(RunTimes(None, None)), cr)
  {
  }

  lemma RestoreOpens(w: World, r: Key, inputs: seq<Input>)
    requires r.kind == DirectoryRestore && Good(w, inputs) && |inputs| >= 2 && WellTyped(w) && r in w.store
    ensures Drive(w, r, Start, inputs)
            == Drive(w, r, if JobFailed(w, r) then Finished(Outcome(0, true))
                           else if JobSucceeded(w, r) then At(RestoreSnapshot(Times(w, r)), w.store[r])
                           else At(RestoreStatus(Times(w, r), JobEnded(w, r)), w.store[r]), inputs[2..])
  {
    hide Drive, Fresh;
    var cr := w.store[r];
    assert Typed(r.kind, cr);
    assert Resume(r, Start, Found(cr)) == At(RestoreLookup, cr);
    if JobKey(r) in w.store {
      assert Typed(Job, w.store[JobKey(r)]);
    }
    DriveTwo(w, r, Start, inputs);
  }

  /** The claim and the job of a restore are there, and nothing is left to do about them. */
  ghost predicate PairFixed(w: World, r: Key, cr: Object, ended: bool)
    requires r.kind == DirectoryRestore && Typed(r.kind, cr)
  {
    Fixed(w, r, RestoreClaim(ended), cr) && Fixed(w, r, RestoreJob(ended), cr)
  }

  ghost predicate SnapFixed(w: World, r: Key, cr: Object, times: Status)
    requires r.kind == DirectoryRestore && Typed(r.kind, cr) && times.RunTimes?
  {
    Fixed(w, r, RestoreSnapshot(times), cr)
  }

  /** What has been made of these, and that nothing but these and the custom resource has changed. */
  ghost predicate PairMade(w: World, w': World, r: Key, cr: Object, ended: bool)
    requires r.kind == DirectoryRestore && Typed(r.kind, cr)
  {
    && Made(w, w', r, RestoreClaim(ended), cr) && Made(w, w', r, RestoreJob(ended), cr)
    && Within(w, w', {r, Target(r, RestoreClaim(ended)), Target(r, RestoreJob(ended))})
  }

  /** The same with the snapshot. */
  ghost predicate TripleMade(w: World, w': World, r: Key, cr: Object, ended: bool, times: Status)
    requires r.kind == DirectoryRestore && Typed(r.kind, cr) && times.RunTimes?
  {
    && Made(w, w', r, RestoreClaim(ended), cr) && Made(w, w', r, RestoreJob(ended), cr)
    && Made(w, w', r, RestoreSnapshot(times), cr)
    && Within(w, w', {r, Target(r, RestoreClaim(ended)), Target(r, RestoreJob(ended)),
          Target(r, RestoreSnapshot(times))})
  }

  lemma PairStep(w: World, w1: World, w': World, r: Key, cr: Object, ended: bool)
    requires r.kind == DirectoryRestore && Typed(r.kind, cr)
    requires Made(w, w1, r, RestoreClaim(ended), cr) && ChangedAt(w, w1, Target(r, RestoreClaim(ended)))
    requires Made(w1, w', r, RestoreJob(ended), cr) && ChangedAt(w1, w', Target(r, RestoreJob(ended)))
    ensures PairMade(w, w', r, cr, ended)
  {
    hide Made;
    MadeElsewhere(w, w1, w', r, RestoreClaim(ended), cr, Target(r, RestoreJob(ended)));
    MadeElsewhere(w, w1, w', r, RestoreJob(ended), cr, Target(r, RestoreClaim(ended)));
    hide Target;
  }

  lemma PairAfterReport(w: World, w1: World, w': World, r: Key, cr: Object, cr1: Object, ended: bool)
    requires r.kind == DirectoryRestore && Typed(r.kind, cr) && Typed(r.kind, cr1)
    requires cr1.spec == cr.spec && cr1.meta.uid == cr.meta.uid && ChangedAt(w, w1, r)
    requires PairMade(w1, w', r, cr1, ended)
    ensures PairMade(w, w', r, cr, ended)
  {
    hide Made;
    MadeElsewhere(w, w1, w', r, RestoreClaim(ended), cr1, r);
    MadeElsewhere(w, w1, w', r, RestoreJob(ended), cr1, r);
    MadeAlike(w, w', r, RestoreClaim(ended), cr, cr1);
    MadeAlike(w, w', r, RestoreJob(ended), cr, cr1);
    hide Target;
  }

  lemma SnapshotFirst(w: World, w1: World, w': World, r: Key, cr: Object, ended: bool, times: Status)
    requires r.kind == DirectoryRestore && Typed(r.kind, cr) && times.RunTimes?
    requires Made(w, w1, r, RestoreSnapshot(times), cr) && ChangedAt(w, w1, Target(r, RestoreSnapshot(times)))
    requires PairMade(w1, w', r, cr, ended)
    ensures TripleMade(w, w', r, cr, ended, times)
  {
    hide Made;
    var snap, others := Target(r, RestoreSnapshot(times)),
        {r, Target(r, RestoreClaim(ended)), Target(r, RestoreJob(ended))};
    MadeElsewhere(w, w1, w', r, RestoreClaim(ended), cr, snap);
    MadeElsewhere(w, w1, w', r, RestoreJob(ended), cr, snap);
    MadeOutside(w, w1, w', r, RestoreSnapshot(times), cr, others);
    hide Target;
  }

  /** The claim and the job of a restore, one after the other. */
  lemma RestorePair(w: World, r: Key, cr: Object, times: Status, ended: bool, inputs: seq<Input>) returns (w': World)
    requires r.kind == DirectoryRestore && Typed(r.kind, cr) && times.RunTimes?
    requires Good(w, inputs) && |inputs| >= 4 && WellTyped(w) && r in w.store && w.store[r] == cr
    ensures Drive(w, r, At(RestoreClaim(ended), cr), inputs)
            == Stop(Finished(Outcome(if ended then 0 else 60, false)), w')
    ensures WellTyped(w') && r in w'.store && w'.store[r] == cr && JobKept(w, w', r)
    ensures PairFixed(w', r, cr, ended)
    ensures SnapFixed(w, r, cr, times) ==> SnapFixed(w', r, cr, times)
    ensures PairFixed(w, r, cr, ended) ==> w' == w
    ensures JobKey(r) in w'.store && (JobKey(r) !in w.store ==> w'.store[JobKey(r)].status == JobStatus(None, 0, 0))
    ensures PairMade(w, w', r, cr, ended)
  {
    hide Fixed, Drive, Good, WellTyped, ChangedAt, Typed, Made, PairMade;
    var w1, in1 := PartStep(w, r, RestoreClaim(ended), cr, inputs);
    var w2, in2 := PartStep(w1, r, RestoreJob(ended), cr, in1);
    w' := w2;
    PairStep(w, w1, w2, r, cr, ended);
    DriveFinished(w2, r, Finished(Outcome(if ended then 0 else 60, false)), in2);
    FixedKept(w1, w2, r, RestoreClaim(ended), cr, cr, Target(r, RestoreJob(ended)));
    if SnapFixed(w, r, cr, times) {
      FixedKept(w, w1, r, RestoreSnapshot(times), cr, cr, Target(r, RestoreClaim(ended)));
      FixedKept(w1, w2, r, RestoreSnapshot(times), cr, cr, Target(r, RestoreJob(ended)));
    }
  }

  /** The status first, then these two. */
  lemma RestoreParts(w: World, r: Key, cr: Object, times: Status, ended: bool, inputs: seq<Input>)
    returns (w': World, cr': Object)
    requires r.kind == DirectoryRestore && Typed(r.kind, cr) && times.RunTimes?
    requires Good(w, inputs) && |inputs| >= 5 && WellTyped(w) && r in w.store && w.store[r] == cr
    ensures Drive(w, r, At(RestoreStatus(times, ended), cr), inputs)
            == Stop(Finished(Outcome(if ended then 0 else 60, false)), w')
    ensures WellTyped(w') && r in w'.store && w'.store[r] == cr' && JobKept(w, w', r)
    ensures Typed(r.kind, cr') && cr'.status == times && cr'.spec == cr.spec && PairFixed(w', r, cr', ended)
    ensures SnapFixed(w, r, cr, times) ==> SnapFixed(w', r, cr', times)
    ensures PairFixed(w, r, cr, ended) && cr.status == times ==> w' == w
    ensures JobKey(r) in w'.store && (JobKey(r) !in w.store ==> w'.store[JobKey(r)].status == JobStatus(None, 0, 0))
    ensures PairMade(w, w', r, cr, ended)
  {
    hide Fixed, Drive, Good, WellTyped, ChangedAt, Reported, PairFixed, PairMade;
    AtLeastOne(w, inputs);
    StatusStep(w, r, RestoreStatus(times, ended), cr, inputs);
    ReportedKeeps(w, r, cr, times, inputs[0].tag);
    ReportedJob(w, r, cr, times, inputs[0].tag);
    var w1 := Reported(w, r, cr, times, inputs[0].tag);
    cr' := w1.store[r];
    w' := RestorePair(w1, r, cr', times, ended, inputs[1..]);
    PairAfterReport(w, w1, w', r, cr, cr', ended);
    if SnapFixed(w, r, cr, times) {
      FixedKept(w, w1, r, RestoreSnapshot(times), cr, cr', r);
    }
    if cr.status == times {
      ReportedSame(w, r, cr, inputs[0].tag);
    }
  }

  lemma AtLeastOne(w: World, inputs: seq<Input>)
    requires Good(w, inputs) && inputs != []
    ensures Good(w, inputs) && inputs[0].fate == Success
  {
  }

  lemma ReportedSame(w: World, r: Key, cr: Object, tag: nat)
    ensures Reported(w, r, cr, cr.status, tag) == w
  {
  }

  lemma ReportedJob(w: World, r: Key, cr: Object, times: Status, tag: nat)
    requires r.kind != Job
    ensures JobKept(w, Reported(w, r, cr, times, tag), r)
    ensures JobKey(r) in Reported(w, r, cr, times, tag).store ==> JobKey(r) in w.store
  {
  }

  /** One undisturbed reconcile of a restore whose job has not failed. */
  lemma RestoreReconcile(w: World, r: Key, inputs: seq<Input>) returns (w': World)
    requires r.kind == DirectoryRestore && Good(w, inputs) && |inputs| >= 9 && WellTyped(w) && r in w.store
    requires !JobFailed(w, r)
    ensures Typed(r.kind, w.store[r])
    ensures Drive(w, r, Start, inputs) == Stop(Finished(Outcome(if JobEnded(w, r) then 0 else 60, false)), w')
    ensures WellTyped(w') && r in w'.store && Typed(r.kind, w'.store[r]) && w'.store[r].status == Times(w, r)
    ensures w'.store[r].spec == w.store[r].spec
    ensures JobKey(r) in w'.store && JobKept(w, w', r)
    ensures JobKey(r) !in w.store ==> w'.store[JobKey(r)].status == JobStatus(None, 0, 0)
    ensures RestoreFixedFor(w', r, JobSucceeded(w, r))
    ensures RestoreFixedFor(w, r, JobSucceeded(w, r)) && w.store[r].status == Times(w, r) ==> w' == w
    ensures if JobSucceeded(w, r) then TripleMade(w, w', r, w.store[r], JobEnded(w, r), Times(w, r))
            else PairMade(w, w', r, w.store[r], JobEnded(w, r))
  {
    var cr, times, ended := w.store[r], Times(w, r), JobEnded(w, r);
    assert Typed(r.kind, cr);
    RestoreOpens(w, r, inputs);
    GoodTail(w, w, inputs, 2);
    hide Drive, Good, Fixed, WellTyped, PairFixed, SnapFixed, JobKept, PairMade, TripleMade;
    var cr': Object;
    w', cr' := RestoreRest(w, r, cr, times, ended, JobSucceeded(w, r), inputs[2..]);
    SameFixed(w, r, cr, ended, times);
    SameFixed(w', r, cr', ended, times);
  }

  /** The snapshot first, if the job has succeeded, then the others. */
  lemma RestoreRest(w: World, r: Key, cr: Object, times: Status, ended: bool, succeeded: bool, inputs: seq<Input>)
    returns (w': World, cr': Object)
    requires r.kind == DirectoryRestore && Typed(r.kind, cr) && times.RunTimes? && (succeeded ==> ended)
    requires Good(w, inputs) && |inputs| >= 7 && WellTyped(w) && r in w.store && w.store[r] == cr
    ensures Drive(w, r, if succeeded then At(RestoreSnapshot(times), cr)
            else At(RestoreStatus(times, ended), cr), inputs)
            == Stop(Finished(Outcome(if ended then 0 else 60, false)), w')
    ensures WellTyped(w') && r in w'.store && w'.store[r] == cr' && JobKept(w, w', r)
    ensures Typed(r.kind, cr') && cr'.status == times && cr'.spec == cr.spec && PairFixed(w', r, cr', ended)
    ensures succeeded ==> SnapFixed(w', r, cr', times)
    ensures PairFixed(w, r, cr, ended) && (succeeded ==> SnapFixed(w, r, cr, times)) && cr.status == times ==> w' == w
    ensures JobKey(r) in w'.store && (JobKey(r) !in w.store ==> w'.store[JobKey(r)].status == JobStatus(None, 0, 0))
    ensures if succeeded then TripleMade(w, w', r, cr, ended, times) else PairMade(w, w', r, cr, ended)
  {
    hide Drive, Good, ChangedAt, Fixed, WellTyped, PairFixed, Made, PairMade, TripleMade;
    if succeeded {
      var w1, in1 := PartStep(w, r, RestoreSnapshot(times), cr, inputs);
      w', cr' := RestoreParts(w1, r, cr, times, ended, in1);
      SnapshotFirst(w, w1, w', r, cr, ended, times);
    } else {
      w', cr' := RestoreParts(w, r, cr, times, ended, inputs);
    }
  }

  /** What is being reported does not matter for the objects themselves. */
  lemma SameFixed(w: World, r: Key, cr: Object, ended: bool, times: Status)
    requires r.kind == DirectoryRestore && Typed(r.kind, cr) && times.RunTimes? && r in w.store && w.store[r] == cr
    ensures RestoreFixedFor(w, r, true) <==> PairFixed(w, r, cr, ended) && SnapFixed(w, r, cr, times)
    ensures RestoreFixedFor(w, r, false) <==> PairFixed(w, r, cr, ended)
  {
    hide Fixed;
    SameObjects(w, r, cr, ended, times);
  }

  ghost predicate RestoreFixedFor(w: World, r: Key, succeeded: bool)
    requires r.kind == DirectoryRestore && r in w.store && Typed(r.kind, w.store[r])
  {
    var cr := w.store[r];
    && Fixed(w, r, RestoreClaim(true), cr) && Fixed(w, r, RestoreJob(true), cr)
    && (succeeded ==> Fixed(w, r, RestoreSnapshot(RunTimes(None, None)), cr))
  }

  /** Once its job exists, a reconcile leaves nothing to do. */
  lemma RestoreSettled(w: World, r: Key, in1: seq<Input>, in2: seq<Input>)
    requires r.kind == DirectoryRestore && WellTyped(w) && r in w.store && |in1| >= 9 && |in2| >= 9
    requires Good(w, in1) && Good(Drive(w, r, Start, in1).world, in2)
    requires JobKey(r) in w.store && !JobFailed(w, r)
    ensures var once := Drive(w, r, Start, in1).world;
            Drive(once, r, Start, in2).world == once
  {
    hide Drive, Good, RestoreFixedFor;
    var w1 := RestoreReconcile(w, r, in1);
    assert Typed(Job, w.store[JobKey(r)]) && Typed(Job, w1.store[JobKey(r)]);
    var w2 := RestoreReconcile(w1, r, in2);
  }

  lemma FailedStops(w: World, r: Key, inputs: seq<Input>)
    requires r.kind == DirectoryRestore && Good(w, inputs) && |inputs| >= 2 && WellTyped(w) && r in w.store
    requires JobFailed(w, r)
    ensures Drive(w, r, Start, inputs) == Stop(Finished(Outcome(0, true)), w)
  {
    RestoreOpens(w, r, inputs);
  }

  /** The completion time of a restore job gets recorded exactly if the job has no failure: for a job that has
      ended and whose completion is not recorded yet, an undisturbed reconcile without failing calls records it
      if and only if the job reports no failed pod. */
  lemma CompletionRecordedIffNoFailure(w: World, r: Key, inputs: seq<Input>)
    requires r.kind == DirectoryRestore && Good(w, inputs) && |inputs| >= 9 && WellTyped(w) && r in w.store
    requires JobEnded(w, r) && w.store[r].status.RunTimes?
    requires w.store[r].status.completion != w.store[JobKey(r)].status.completed
    ensures var w' := Drive(w, r, Start, inputs).world;
            && r in w'.store && w'.store[r].status.RunTimes?
            && (w'.store[r].status.completion == w.store[JobKey(r)].status.completed <==>
                  w.store[JobKey(r)].status.failed == 0)
  {
    hide Drive, Good, WellTyped;
    if JobFailed(w, r) {
      FailedStops(w, r, inputs);
    } else {
      var w' := RestoreReconcile(w, r, inputs);
    }
  }

  /** R R R = R R for restores, failed ones included. */
  lemma RestoreSettles(w: World, r: Key, in1: seq<Input>, in2: seq<Input>, in3: seq<Input>)
    requires r.kind == DirectoryRestore && WellTyped(w) && |in1| >= 9 && |in2| >= 9 && |in3| >= 9
    requires Good(w, in1) && Good(Drive(w, r, Start, in1).world, in2)
    requires Good(Drive(Drive(w, r, Start, in1).world, r, Start, in2).world, in3)
    ensures var twice := Drive(Drive(w, r, Start, in1).world, r, Start, in2).world;
            Drive(twice, r, Start, in3).world == twice
  {
    if r !in w.store {
      NothingToDo(w, r, in1);
      NothingToDo(w, r, in2);
      NothingToDo(w, r, in3);
    } else if JobFailed(w, r) {
      hide Drive;
      FailedStops(w, r, in1);
      FailedStops(w, r, in2);
      FailedStops(w, r, in3);
    } else {
      hide Drive, Good, RestoreFixedFor;
      var w1 := RestoreReconcile(w, r, in1);
      assert Typed(Job, w1.store[JobKey(r)]);
      RestoreSettled(w1, r, in2, in3);
    }
  }
}
