/** How often the passwords of a service are checked (controllers/passwords.go). */
module Throttle {
  import opened Text
  import opened Cluster
  import opened Listing
  import opened Controllers
  import opened Runs
  import opened Separation
  import opened Passwords

  /** Recording the time of a pass and reading it back gives the time. */
  lemma RecordingReadsBack(annotations: Labels, now: nat)
    requires now <= INT64_MAX
    ensures LastCheck(Recording(annotations, now)) == Some(now)
  {
    ParseFormat(now);
    assert |FormatInt(now)| > 0;
  }

  /** A pass is due unless the annotation says that the last one is less than 300 seconds ago; one that does not
      parse stands for time zero. */
  predicate PassDue(annotations: Labels, now: nat) {
    var key := "directory.forgerock.io/last-password-check";
    || key !in annotations || annotations[key] == ""
    || (match ParseInt(annotations[key])
        case Some(t) => now - t >= 300
        case None => now >= 300)
  }

  /** Where a pass begins; one over no accounts is at its end already. */
  function PassStart(cr: Object, now: nat): Pc
    requires Typed(DirectoryService, cr)
  {
    if cr.spec.passwords.Keys != {} then At(PassChoose(cr.spec.passwords.Keys, now), cr)
    else if cr.meta.annotations == map[] then Finished(Panicked(NilMap))
    else At(UpdateCr(Recording(cr.meta.annotations, now)), cr)
  }

  lemma DueUnlessTooSoon(annotations: Labels, now: nat)
    ensures PassDue(annotations, now) <==> !TooSoon(annotations, now)
  {
    hide ParseInt;
  }

  /** Where the reconcile goes from its check of the time. */
  ghost function FromClock(w: World, d: Key, cr: Object, inp: Input): Pc
    requires d.kind == DirectoryService && Typed(DirectoryService, cr)
  {
    Resume(d, At(PassClock, cr), Perform(w, CallOf(d, At(PassClock, cr)), inp).reply)
  }

  lemma ClockTurn(w: World, d: Key, cr: Object, inp: Input)
    requires d.kind == DirectoryService && Typed(DirectoryService, cr)
    ensures FromClock(w, d, cr, inp)
            == if TooSoon(cr.meta.annotations, w.clock) then At(UpdateCr(cr.meta.annotations), cr)
               else NextAccount(cr, cr.spec.passwords.Keys, w.clock)
    ensures Perform(w, CallOf(d, At(PassClock, cr)), inp).world == w
  {
    hide TooSoon, NextAccount;
  }

  /** The reconcile goes on into the loop over all the accounts if a pass is due, which it always is without a
      record and otherwise from 300 seconds after the recorded time on; if none is due, it skips the loop. */
  lemma LoopsIffDue(w: World, d: Key, cr: Object, inp: Input)
    requires d.kind == DirectoryService && Typed(DirectoryService, cr)
    ensures FromClock(w, d, cr, inp)
            == if PassDue(cr.meta.annotations, w.clock) then PassStart(cr, w.clock)
               else At(UpdateCr(cr.meta.annotations), cr)
  {
    hide FormatInt, ParseInt, FromClock, TooSoon, PassDue;
    ClockTurn(w, d, cr, inp);
    DueUnlessTooSoon(cr.meta.annotations, w.clock);
  }

  /** An annotation that does not parse counts as time zero: the reconcile goes into the password loop, from
      five minutes after the epoch on, and not before. */
  lemma UnparseableForcesPass(w: World, d: Key, cr: Object, inp: Input)
    requires d.kind == DirectoryService && Typed(DirectoryService, cr)
    requires LAST_CHECK in cr.meta.annotations && cr.meta.annotations[LAST_CHECK] != ""
    requires ParseInt(cr.meta.annotations[LAST_CHECK]).None?
    ensures w.clock >= 300 <==> FromClock(w, d, cr, inp) == PassStart(cr, w.clock)
  {
    hide FormatInt, ParseInt, FromClock;
    LoopsIffDue(w, d, cr, inp);
    if cr.spec.passwords.Keys == {} && w.clock < 300 {
      // Even then the two differ: what a pass records does parse.
      ParseFormat(w.clock);
      assert Recording(cr.meta.annotations, w.clock)[LAST_CHECK] != cr.meta.annotations[LAST_CHECK];
    }
  }

  // ------------------------------------------------------------------------- what a full pass comes to

  /** A pass ends early when a call fails, and with a panic when a bind gets no connection. */
  predicate BrokenOff(pc: Pc) {
    pc == Finished(Outcome(60, false)) || pc == Finished(Panicked(NilConnection))
  }

  /** The pass has been broken off by a failure, is still going on, or has come to its end: there it records
      its time exactly when the custom resource has some annotation already; without any, the map is nil and
      the write panics. */
  ghost predicate EndsRight(cr: Object, now: nat, pc: Pc)
    requires Typed(DirectoryService, cr)
  {
    || BrokenOff(pc)
    || (InLoop(pc) && pc.cr == cr && PassTime(pc.stage) == Some(now))
    || (pc == At(UpdateCr(Recording(cr.meta.annotations, now)), cr) && cr.meta.annotations != map[])
    || (pc == Finished(Panicked(NilMap)) && cr.meta.annotations == map[])
  }

  lemma LoopStep(d: Key, cr: Object, now: nat, pc: Pc, reply: Reply)
    requires d.kind == DirectoryService && Typed(DirectoryService, cr) && Ready(d.kind, pc) && InLoop(pc)
    requires EndsRight(cr, now, pc)
    ensures EndsRight(cr, now, Resume(d, pc, reply))
  {
    hide FormatInt;
  }

  lemma {:induction false} PassEndsRight(w: World, d: Key, cr: Object, now: nat, pc: Pc, inputs: seq<Input>)
    requires d.kind == DirectoryService && Typed(DirectoryService, cr) && Ready(d.kind, pc) && EndsRight(cr, now, pc)
    ensures EndsRight(cr, now, Pass(w, d, pc, inputs).pc)
    decreases |inputs|
  {
    hide EndsRight, Perform, CallOf, Resume;
    if inputs == [] || !InLoop(pc) {
    } else {
      var a := Perform(w, CallOf(d, pc), inputs[0]);
      LoopStep(d, cr, now, pc, a.reply);
      PassEndsRight(a.world, d, cr, now, Resume(d, pc, a.reply), inputs[1..]);
    }
  }

  /** For every order of iteration and whichever calls fail: a pass that is neither broken off nor still going
      on goes on to record its time if and only if the custom resource has an annotation, and otherwise
      panics. */
  lemma RecordsIffAnnotated(w: World, d: Key, cr: Object, now: nat, inputs: seq<Input>)
    requires d.kind == DirectoryService && Typed(DirectoryService, cr)
    ensures var pc := Pass(w, d, NextAccount(cr, cr.spec.passwords.Keys, now), inputs).pc;
            !InLoop(pc) && !BrokenOff(pc) ==>
              && (pc == At(UpdateCr(Recording(cr.meta.annotations, now)), cr) <==> cr.meta.annotations != map[])
              && (pc == Finished(Panicked(NilMap)) <==> cr.meta.annotations == map[])
  {
    hide FormatInt, Pass;
    PassEndsRight(w, d, cr, now, NextAccount(cr, cr.spec.passwords.Keys, now), inputs);
  }

  // ------------------------------------------------------------------------------ passes over runs

  function PassTime(st: Stage): Option<nat> {
    match st
    case PassChoose(_, now) => Some(now)
    case PassLookup(_, _, now) => Some(now)
    case PassBind(_, _, _, now) => Some(now)
    case PassSet(_, _, _, now) => Some(now)
    case _ => None
  }

  /** A pass in flight is not too soon after the one that the custom resource in memory records. */
  ghost predicate PcInv(pc: Pc, clock: nat) {
    pc.At? ==>
      && (PassTime(pc.stage).Some? ==>
            !TooSoon(pc.cr.meta.annotations, PassTime(pc.stage).value) && PassTime(pc.stage).value <= clock)
      && (pc.stage.UpdateCr? ==>
            || pc.stage.annotations == pc.cr.meta.annotations
            || exists now: nat :: IsPass(pc.stage.annotations, pc.cr, now, clock))
  }

  ghost predicate IsPass(annotations: Labels, cr: Object, now: nat, clock: nat) {
    annotations == Recording(cr.meta.annotations, now) && !TooSoon(cr.meta.annotations, now) && now <= clock
  }

  lemma PcInvNext(d: Key, pc: Pc, reply: Reply, clock: nat)
    requires Ready(d.kind, pc) && !pc.Finished? && d.kind == DirectoryService && PcInv(pc, clock)
    requires reply.Time? ==> reply.now == clock
    ensures PcInv(Resume(d, pc, reply), clock)
  {
    hide Fresh, Resolve, Scheduled, Adjusted, TooSoon, Upserted, Begin;
    if pc.At? && InPasswords(pc.stage) {
      PassNext(pc.stage, pc.cr, reply, clock);
    } else {
      var next := Resume(d, pc, reply);
      EntersLater(d, pc, reply);
    }
  }

  lemma EntersLater(d: Key, pc: Pc, reply: Reply)
    requires Ready(d.kind, pc) && !pc.Finished? && d.kind == DirectoryService
    requires !(pc.At? && InPasswords(pc.stage))
    ensures var next := Resume(d, pc, reply);
            next.At? ==> PassTime(next.stage).None? && !next.stage.UpdateCr?
  {
    hide Fresh, Resolve, Adjusted;
  }

  lemma PassNext(st: Stage, cr: Object, reply: Reply, clock: nat)
    requires Fits(DirectoryService, st, cr) && InPasswords(st) && PcInv(At(st, cr), clock)
    requires reply.Time? ==> reply.now == clock
    ensures PcInv(Synchronised(st, cr, reply), clock)
  {
    hide TooSoon, FormatInt;
    var next := Synchronised(st, cr, reply);
    if next.At? && next.stage.UpdateCr? && next.stage.annotations != cr.meta.annotations {
      var now := if st.PassClock? then clock else PassTime(st).value;
      assert IsPass(next.stage.annotations, cr, now, clock);
    }
  }

  /** The time recorded by a step that writes the annotations of a full pass. */
  ghost function Persisted(s: System, l: Label, d: Key): Option<int> {
    var pc := PcOf(s, d);
    if && l.Step? && l.req == d && pc.At? && pc.stage.UpdateCr? && Ready(d.kind, pc)
       && pc.stage.annotations != pc.cr.meta.annotations
       && Move(s, d, l.inp).world != s.world
    then LastCheck(pc.stage.annotations) else None
  }

  ghost function Passes(tools: Tools, s: System, run: seq<Label>, d: Key): seq<int>
    decreases |run|
  {
    if run == [] then []
    else
      var t := Persisted(s, run[0], d);
      (if t.Some? then [t.value] else []) + Passes(tools, Do(tools, s, run[0]), run[1..], d)
  }

  predicate Since(annotations: Labels, base: Option<int>) {
    base.Some? ==> LastCheck(annotations).Some? && LastCheck(annotations).value >= base.value
  }

  ghost predicate Inv(s: System, d: Key, base: Option<int>) {
    && PcInv(PcOf(s, d), s.world.clock)
    && s.world.clock <= INT64_MAX
    && (base.Some? ==> d in s.world.store && Since(s.world.store[d].meta.annotations, base))
  }

  /** Nobody else changes the recorded time or deletes the custom resource, and the clock fits 64 bits. */
  ghost predicate Permitted(w: World, l: Label, d: Key) {
    && l != Remove(d)
    && (l.Edit? && l.key == d && d in w.store ==>
          LastCheck(l.obj.meta.annotations) == LastCheck(w.store[d].meta.annotations))
    && (l.Tick? ==> l.clock <= INT64_MAX)
  }

  lemma AnnotationsAfter(w: World, d: Key, req: Key, pc: Pc, inp: Input)
    requires ThreadOk(w, req, pc) && d.kind == DirectoryService && d in w.store
    ensures var w' := Perform(w, CallOf(req, pc), inp).world;
            && w'.clock == w.clock && d in w'.store
            && (|| w'.store[d].meta.annotations == w.store[d].meta.annotations
                || (&& req == d && pc.At? && pc.stage.UpdateCr? && w.store[d] == pc.cr
                    && w'.store[d].meta.annotations == pc.stage.annotations))
  {
    hide Perform, CallOf, Fresh, Adjusted;
    StepEffect(w, req, pc, inp);
  }

  /** A step that persists a full pass really writes it over the annotations the pass was decided on. */
  lemma PersistedWrites(w: World, d: Key, pc: Pc, inp: Input)
    requires ThreadOk(w, d, pc) && pc.At? && pc.stage.UpdateCr?
    requires Perform(w, CallOf(d, pc), inp).world != w
    ensures var w' := Perform(w, CallOf(d, pc), inp).world;
            d in w.store && w.store[d] == pc.cr && d in w'.store && w'.store[d].meta.annotations == pc.stage.annotations
  {
    hide Perform, CallOf, Fresh, Adjusted;
    StepEffect(w, d, pc, inp);
  }

  lemma OwnStep(s: System, d: Key, inp: Input, base: Option<int>)
    requires Sound(s) && d.kind == DirectoryService && Inv(s, d, base)
    ensures var t := Persisted(s, Step(d, inp), d);
            && (t.Some? && base.Some? ==> t.value >= base.value + 300)
            && Inv(Move(s, d, inp), d, if t.Some? then t else base)
  {
    hide Perform, CallOf, Resume, TooSoon, LastCheck, Recording;
    var pc := PcOf(s, d);
    assert ThreadOk(s.world, d, pc);
    var a := Perform(s.world, CallOf(d, pc), inp);
    TimeIsClock(s.world, d, pc, inp);
    PcInvNext(d, pc, a.reply, s.world.clock);
    if d in s.world.store {
      AnnotationsAfter(s.world, d, d, pc, inp);
    } else {
      StepStorage(s.world, d, pc, inp);
    }
    if Persisted(s, Step(d, inp), d).Some? {
      PersistedWrites(s.world, d, pc, inp);
      var now: nat :| IsPass(pc.stage.annotations, pc.cr, now, s.world.clock);
      RecordingReadsBack(pc.cr.meta.annotations, now);
      NotTooSoon(pc.cr.meta.annotations, now);
    } else if pc.At? && pc.stage.UpdateCr? && pc.stage.annotations != pc.cr.meta.annotations && a.world != s.world {
      var now: nat :| IsPass(pc.stage.annotations, pc.cr, now, s.world.clock);
      RecordingReadsBack(pc.cr.meta.annotations, now);
    }
  }

  lemma NotTooSoon(annotations: Labels, now: nat)
    requires !TooSoon(annotations, now)
    ensures LastCheck(annotations).Some? ==> now >= LastCheck(annotations).value + 300
  {
  }

  lemma PcInvLater(pc: Pc, clock: nat, clock': nat)
    requires PcInv(pc, clock) && clock <= clock'
    ensures PcInv(pc, clock')
  {
    if pc.At? && pc.stage.UpdateCr? && pc.stage.annotations != pc.cr.meta.annotations {
      var now: nat :| IsPass(pc.stage.annotations, pc.cr, now, clock);
      assert IsPass(pc.stage.annotations, pc.cr, now, clock');
    }
  }

  lemma OutsideStep(tools: Tools, s: System, l: Label, d: Key, base: Option<int>)
    requires !l.Step? && !l.Crash? && d.kind == DirectoryService && Inv(s, d, base) && Permitted(s.world, l, d)
    ensures Inv(Do(tools, s, l), d, base)
  {
    hide PcInv, LastCheck;
    PcInvLater(PcOf(s, d), s.world.clock, Do(tools, s, l).world.clock);
    if !Touches(l, d) {
      OutsideKeeps(tools, s.world, l, d);
    }
  }

  lemma InvKept(tools: Tools, s: System, l: Label, d: Key, base: Option<int>)
    requires Sound(s) && d.kind == DirectoryService && Inv(s, d, base) && Permitted(s.world, l, d)
    ensures var t := Persisted(s, l, d);
            && (t.Some? && base.Some? ==> t.value >= base.value + 300)
            && Inv(Do(tools, s, l), d, if t.Some? then t else base)
  {
    hide Perform, CallOf, Resume, Outside, LastCheck;
    if l.Step? {
      assert l == Step(l.req, l.inp);
      if l.req == d {
        OwnStep(s, d, l.inp, base);
      } else {
        var pc := PcOf(s, l.req);
        assert ThreadOk(s.world, l.req, pc);
        StepStorage(s.world, l.req, pc, l.inp);
        if d in s.world.store {
          AnnotationsAfter(s.world, d, l.req, pc, l.inp);
        }
      }
    } else if !l.Crash? {
      OutsideStep(tools, s, l, d, base);
    }
  }

  ghost predicate AllPermitted(tools: Tools, s: System, run: seq<Label>, d: Key)
    decreases |run|
  {
    run != [] ==> Permitted(s.world, run[0], d) && AllPermitted(tools, Do(tools, s, run[0]), run[1..], d)
  }

  ghost predicate Spaced(base: Option<int>, times: seq<int>)
    decreases |times|
  {
    times != [] ==>
      && (base.Some? ==> times[0] >= base.value + 300)
      && Spaced(Some(times[0]), times[1..])
  }

  lemma {:induction false} PassesFollow(tools: Tools, s: System, run: seq<Label>, d: Key, base: Option<int>)
    requires Sound(s) && d.kind == DirectoryService && Inv(s, d, base) && AllPermitted(tools, s, run, d)
    ensures Spaced(base, Passes(tools, s, run, d))
    decreases |run|
  {
    hide Do, Inv, Permitted, Persisted;
    if run == [] {
    } else {
      var t, s' := Persisted(s, run[0], d), Do(tools, s, run[0]);
      SoundKept(tools, s, run[0]);
      InvKept(tools, s, run[0], d, base);
      PassesFollow(tools, s', run[1..], d, if t.Some? then t else base);
      if t.Some? {
        assert Passes(tools, s, run, d)[1..] == Passes(tools, s', run[1..], d);
      } else {
        assert Passes(tools, s, run, d) == Passes(tools, s', run[1..], d);
      }
    }
  }

  lemma {:induction false} SpacedApart(base: Option<int>, times: seq<int>, i: nat, j: nat)
    requires Spaced(base, times) && i < j < |times|
    ensures times[j] >= times[i] + 300
    decreases |times|
  {
    if i == 0 && j == 1 {
    } else if i > 0 {
      SpacedApart(Some(times[0]), times[1..], i - 1, j - 1);
    } else {
      SpacedApart(Some(times[0]), times[1..], 0, j - 1);
      assert times[1..][0] == times[1] && times[1..][j - 1] == times[j];
    }
  }

  /** Over every run, any two passes whose time got recorded lie at least 300 seconds apart. */
  lemma PassesAreThrottled(tools: Tools, s: System, run: seq<Label>, d: Key, i: nat, j: nat)
    requires Sound(s) && s.threads == map[] && d.kind == DirectoryService && s.world.clock <= INT64_MAX
    requires AllPermitted(tools, s, run, d) && i < j < |Passes(tools, s, run, d)|
    ensures Passes(tools, s, run, d)[j] >= Passes(tools, s, run, d)[i] + 300
  {
    PassesFollow(tools, s, run, d, None);
    SpacedApart(None, Passes(tools, s, run, d), i, j);
  }

  lemma UnpersistedStep(tools: Tools, s: System, l: Label, d: Key)
    requires Sound(s) && d.kind == DirectoryService && d in s.world.store && Inv(s, d, None)
    requires Permitted(s.world, l, d) && Persisted(s, l, d).None?
    ensures d in Do(tools, s, l).world.store
    ensures LastCheck(Do(tools, s, l).world.store[d].meta.annotations) == LastCheck(s.world.store[d].meta.annotations)
  {
    hide Perform, CallOf, Resume, LastCheck, TooSoon, Recording;
    if l.Step? {
      var pc := PcOf(s, l.req);
      assert ThreadOk(s.world, l.req, pc);
      AnnotationsAfter(s.world, d, l.req, pc, l.inp);
      if l.req == d && pc.At? && pc.stage.UpdateCr? && pc.stage.annotations != pc.cr.meta.annotations {
        var now: nat :| IsPass(pc.stage.annotations, pc.cr, now, s.world.clock);
        RecordingReadsBack(pc.cr.meta.annotations, now);
      }
    } else if !l.Crash? && !Touches(l, d) {
      OutsideKeeps(tools, s.world, l, d);
    }
  }

  lemma DueLater(annotations: Labels, now: nat, annotations': Labels, now': nat)
    requires LastCheck(annotations') == LastCheck(annotations) && now <= now' && PassDue(annotations, now)
    ensures PassDue(annotations', now')
  {
    hide ParseInt;
  }

  /** Over every run without a full pass that got written back, through passes that fail, panics, restarts and
      retries, the recorded time stays as it was; so a pass that was due at the start of the run is due at its
      end, and can be tried again. */
  lemma {:induction false} FailedPassLeavesTheRecord(tools: Tools, s: System, run: seq<Label>, d: Key)
    requires Sound(s) && d.kind == DirectoryService && d in s.world.store && Inv(s, d, None)
    requires AllPermitted(tools, s, run, d) && Passes(tools, s, run, d) == []
    ensures var w := Exec(tools, s, run).world;
            && d in w.store
            && LastCheck(w.store[d].meta.annotations) == LastCheck(s.world.store[d].meta.annotations)
            && w.clock >= s.world.clock
            && (PassDue(s.world.store[d].meta.annotations, s.world.clock) ==>
                  PassDue(w.store[d].meta.annotations, w.clock))
    decreases |run|
  {
    hide Do, Inv, Permitted, Persisted, LastCheck, Sound, PassDue;
    if run == [] {
    } else {
      SoundKept(tools, s, run[0]);
      InvKept(tools, s, run[0], d, None);
      UnpersistedStep(tools, s, run[0], d);
      ClockGrows(tools, s, run[0]);
      var w, w' := s.world, Do(tools, s, run[0]).world;
      if PassDue(w.store[d].meta.annotations, w.clock) {
        DueLater(w.store[d].meta.annotations, w.clock, w'.store[d].meta.annotations, w'.clock);
      }
      FailedPassLeavesTheRecord(tools, Do(tools, s, run[0]), run[1..], d);
    }
  }

  // ---------------------------------------------------------------------- without any annotation

  /** Neither the stored custom resource nor the one in memory has an annotation, so no pass gets to its
      record. */
  ghost predicate Bare(s: System, d: Key) {
    var pc := PcOf(s, d);
    && (d in s.world.store ==> s.world.store[d].meta.annotations == map[])
    && (pc.At? || pc.Creating? || pc.Updating? ==> pc.cr.meta.annotations == map[] && !pc.stage.UpdateCr?)
  }

  lemma BareNext(d: Key, pc: Pc, reply: Reply)
    requires Ready(d.kind, pc) && !pc.Finished? && d.kind == DirectoryService
    requires pc.At? && InPasswords(pc.stage) && pc.cr.meta.annotations == map[] && !pc.stage.UpdateCr?
    ensures var next := Resume(d, pc, reply);
            next.At? ==> !next.stage.UpdateCr?
  {
    hide FormatInt;
  }

  lemma DraftsAreUpserts(d: Key, pc: Pc, reply: Reply)
    requires Ready(d.kind, pc) && !pc.Finished?
    ensures var next := Resume(d, pc, reply);
            next.Creating? || next.Updating? ==> IsUpsert(next.stage)
  {
    hide Fresh, Resolve, Adjusted, Scheduled, Synchronised;
  }

  lemma BareStep(s: System, d: Key, inp: Input)
    requires Sound(s) && d.kind == DirectoryService && Bare(s, d)
    ensures Bare(Move(s, d, inp), d)
  {
    hide Perform, CallOf, Resume;
    var pc := PcOf(s, d);
    assert ThreadOk(s.world, d, pc);
    var a := Perform(s.world, CallOf(d, pc), inp);
    if d in s.world.store {
      AnnotationsAfter(s.world, d, d, pc, inp);
    }
    CrSpecAfter(s.world, d, pc, inp);
    DraftsAreUpserts(d, pc, a.reply);
    if pc.At? && InPasswords(pc.stage) {
      BareNext(d, pc, a.reply);
    } else {
      EntersLater(d, pc, a.reply);
    }
  }

  lemma BareKept(tools: Tools, s: System, l: Label, d: Key)
    requires Sound(s) && d.kind == DirectoryService && Bare(s, d)
    requires l.Edit? && l.key == d ==> l.obj.meta.annotations == map[]
    ensures Bare(Do(tools, s, l), d) && Persisted(s, l, d).None?
  {
    hide Perform, CallOf, Resume, JobRan, Provisioned, Fresh, Adjusted, LastCheck;
    if l.Step? {
      assert l == Step(l.req, l.inp);
      if l.req == d {
        BareStep(s, d, l.inp);
      } else {
        var pc := PcOf(s, l.req);
        assert ThreadOk(s.world, l.req, pc);
        if d in s.world.store {
          AnnotationsAfter(s.world, d, l.req, pc, l.inp);
        } else {
          StepEffect(s.world, l.req, pc, l.inp);
        }
      }
    } else if !l.Crash? && !Touches(l, d) {
      OutsideKeeps(tools, s.world, l, d);
    }
  }

  /** Over every run in which nobody annotates the custom resource, no pass is ever recorded, however many
      reconciles go through all the accounts; the custom resource stays without annotations. */
  lemma {:induction false} NoRecordWithoutAnnotation(tools: Tools, s: System, run: seq<Label>, d: Key)
    requires Sound(s) && d.kind == DirectoryService && Bare(s, d)
    requires forall i :: 0 <= i < |run| && run[i].Edit? && run[i].key == d ==> run[i].obj.meta.annotations == map[]
    ensures Passes(tools, s, run, d) == []
    ensures Bare(Exec(tools, s, run), d)
    decreases |run|
  {
    hide Do, Sound, Bare, Persisted;
    if run == [] {
    } else {
      SoundKept(tools, s, run[0]);
      BareKept(tools, s, run[0], d);
      NoRecordWithoutAnnotation(tools, Do(tools, s, run[0]), run[1..], d);
    }
  }
}
