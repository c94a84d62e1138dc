/** How often a service takes snapshots (controllers/snapshots.go). */
module Schedule {
  import opened Text
  import opened Cluster
  import opened Listing
  import opened Controllers
  import opened Runs
  import opened Separation

  // ------------------------------------------------------------------------------ the deadline

  const MAX_PERIOD := 35791394

  predicate IsInt32(n: int) { -0x8000_0000 <= n < 0x8000_0000 }

  /** The clock decides between waiting and taking a snapshot. */
  predicate Takes(cr: Object, now: nat)
    requires Typed(DirectoryService, cr)
  {
    Scheduled(SnapClock, cr, Time(now)) == At(SnapCreate(now), cr)
  }

  /** A service waits out its period exactly when the period in seconds fits 32 bits from above: beyond
      MAX_PERIOD minutes the product wraps and the deadline lies before the end of the period. */
  lemma WaitsIffPeriodFits(cr: Object)
    requires Typed(DirectoryService, cr) && cr.status.lastSnapshot > 0 && IsInt32(cr.spec.schedule.periodMinutes)
    ensures (forall now: nat :: Takes(cr, now) ==> now >= cr.status.lastSnapshot + 60 * cr.spec.schedule.periodMinutes)
            <==> cr.spec.schedule.periodMinutes <= MAX_PERIOD
  {
    var period, last := cr.spec.schedule.periodMinutes, cr.status.lastSnapshot;
    if period <= MAX_PERIOD {
      assert Int32(60 * period) >= 60 * period;
      assert period * 60 == 60 * period;
    } else {
      var now: nat := last + 60 * period - 1;
      assert Int32(period * 60) < period * 60;
      assert Takes(cr, now);
    }
  }

  /** Within the limits a snapshot is due exactly when a period has passed since the recorded time, and never
      before any time has been recorded. */
  lemma DueIffPeriodOver(cr: Object, now: nat)
    requires Typed(DirectoryService, cr) && -MAX_PERIOD <= cr.spec.schedule.periodMinutes <= MAX_PERIOD
    ensures Takes(cr, now) <==>
              cr.status.lastSnapshot != 0 && now >= cr.status.lastSnapshot + 60 * cr.spec.schedule.periodMinutes
  {
    assert Int32(cr.spec.schedule.periodMinutes * 60) == 60 * cr.spec.schedule.periodMinutes;
  }

  /** For example: one minute over the limit, the next snapshot is due at once. */
  lemma WrappedPeriodFiresAtOnce(cr: Object, now: nat)
    requires Typed(DirectoryService, cr) && 0 < cr.status.lastSnapshot <= now
    requires cr.spec.schedule.periodMinutes == MAX_PERIOD + 1
    ensures Takes(cr, now)
  {
    assert Int32(cr.spec.schedule.periodMinutes * 60) < 0;
  }

  // ------------------------------------------------------------------------------ attempts over runs

  datatype Taking = Taking(now: nat, period: int)

  predicate InAttempt(pc: Pc) {
    (pc.At? || pc.Creating? || pc.Updating?) && (pc.stage.SnapCreate? || pc.stage.SnapStatus?)
  }

  /** The step with which a reconcile sets out to create a snapshot. */
  ghost function AttemptOf(s: System, l: Label, d: Key): Option<Taking> {
    var pc := PcOf(s, d);
    if l.Step? && l.req == d && pc.At? && pc.stage.SnapCreate? && Typed(DirectoryService, pc.cr)
    then Some(Taking(pc.stage.now, pc.cr.spec.schedule.periodMinutes)) else None
  }

  ghost function Attempts(tools: Tools, s: System, run: seq<Label>, d: Key): seq<Taking>
    decreases |run|
  {
    if run == [] then []
    else
      var a := AttemptOf(s, run[0], d);
      (if a.Some? then [a.value] else []) + Attempts(tools, Do(tools, s, run[0]), run[1..], d)
  }

  /** The status is left to the operator, which does not restart or fail to record the time while it is
      taking a snapshot. */
  ghost predicate Recorded(s: System, l: Label, d: Key) {
    var pc := PcOf(s, d);
    && (l.Edit? && l.key == d ==>
          if d in s.world.store then l.obj.status == s.world.store[d].status else l.obj.status == ServiceStatus(0))
    && (InAttempt(pc) ==> !l.Crash?)
    && (l.Step? && l.req == d && InAttempt(pc) && pc.stage.SnapStatus? && Ready(d.kind, pc) ==>
          !Resume(d, pc, Perform(s.world, CallOf(d, pc), l.inp).reply).Finished?)
  }

  ghost predicate AllRecorded(tools: Tools, s: System, run: seq<Label>, d: Key)
    decreases |run|
  {
    run != [] ==> Recorded(s, run[0], d) && AllRecorded(tools, Do(tools, s, run[0]), run[1..], d)
  }

  predicate Since(o: Object, base: nat) {
    o.status.ServiceStatus? ==> o.status.lastSnapshot == 0 || o.status.lastSnapshot >= base
  }

  /** No attempt can start before `base` plus its period. */
  ghost predicate PcSince(pc: Pc, base: nat, clock: nat) {
    pc.At? || pc.Creating? || pc.Updating? ==>
      if pc.stage.SnapCreate? && pc.At? && Typed(DirectoryService, pc.cr) then
        pc.stage.now >= base + Int32(pc.cr.spec.schedule.periodMinutes * 60) && pc.stage.now <= clock
      else if pc.stage.SnapCreate? || pc.stage.SnapStatus? then base <= pc.stage.now <= clock
      else
        && Since(pc.cr, base)
        && (pc.stage.SnapFirst? ==> pc.stage.now >= base)
  }

  ghost predicate Inv(s: System, d: Key, base: nat) {
    && base <= s.world.clock
    && PcSince(PcOf(s, d), base, s.world.clock)
    && (!InAttempt(PcOf(s, d)) && d in s.world.store ==> Since(s.world.store[d], base))
  }

  /** Where a transition of the service leads, as far as snapshots are concerned. */
  lemma NextStage(d: Key, pc: Pc, reply: Reply)
    requires Ready(d.kind, pc) && !pc.Finished? && d.kind == DirectoryService
    ensures var next := Resume(d, pc, reply);
            InAttempt(next) || (next.At? && next.stage.SnapFirst?) ==>
              || (InAttempt(pc) && pc.stage.SnapCreate? && next.stage.now == pc.stage.now
                  && !(next.At? && next.stage.SnapCreate?))
              || (&& pc.At? && pc.stage.SnapClock? && reply.Time? && next.cr == pc.cr && next.stage.now == reply.now
                  && (next.stage.SnapCreate? ==>
                        && next.At? && pc.cr.status.lastSnapshot != 0 && reply.now >= Deadline(pc.cr)))
  {
    hide Fresh, Resolve, Synchronised, Adjusted;
  }

  lemma LeavesAttempt(d: Key, pc: Pc, reply: Reply)
    requires Ready(d.kind, pc) && !pc.Finished? && d.kind == DirectoryService && InAttempt(pc)
    ensures var next := Resume(d, pc, reply);
            InAttempt(next) || (pc.At? && pc.stage.SnapStatus?)
  {
    hide Fresh, Resolve, Synchronised, Adjusted;
  }

  /** What the stored time of the last snapshot becomes. */
  lemma StatusAfter(w: World, d: Key, pc: Pc, inp: Input)
    requires ThreadOk(w, d, pc) && d.kind == DirectoryService
    ensures var a := Perform(w, CallOf(d, pc), inp);
            && a.world.clock == w.clock
            && (d in a.world.store ==>
                  && d in w.store
                  && (|| a.world.store[d].status == w.store[d].status
                      || (&& pc.At? && (pc.stage.SnapFirst? || pc.stage.SnapStatus?)
                          && a.world.store[d].status == ServiceStatus(pc.stage.now))))
  {
    hide Perform, CallOf, Fresh, Adjusted;
    StepEffect(w, d, pc, inp);
  }

  /** A recorded attempt has written its time. */
  lemma StatusWritten(w: World, d: Key, pc: Pc, inp: Input)
    requires ThreadOk(w, d, pc) && d.kind == DirectoryService && pc.At? && pc.stage.SnapStatus?
    ensures var a := Perform(w, CallOf(d, pc), inp);
            var next := Resume(d, pc, a.reply);
            !next.Finished? ==>
              && d in a.world.store && a.world.store[d].status == ServiceStatus(pc.stage.now)
              && next.At? && next.stage.SnapList? && next.cr == a.world.store[d]
  {
  }

  /** A step that sets out to take a snapshot honours the period and becomes the new base. */
  lemma AttemptStep(s: System, d: Key, inp: Input, base: nat)
    requires Sound(s) && d.kind == DirectoryService && Inv(s, d, base)
    requires AttemptOf(s, Step(d, inp), d).Some?
    ensures var a := AttemptOf(s, Step(d, inp), d).value;
            && a.now >= base + Int32(a.period * 60)
            && Inv(Move(s, d, inp), d, a.now)
  {
    hide Perform, CallOf, Resume, Int32;
    var pc := PcOf(s, d);
    assert ThreadOk(s.world, d, pc);
    var reply := Perform(s.world, CallOf(d, pc), inp).reply;
    NextStage(d, pc, reply);
    LeavesAttempt(d, pc, reply);
    StatusAfter(s.world, d, pc, inp);
  }

  /** The rest of an attempt keeps the base, and so does the record of its time. */
  lemma RestOfAttempt(s: System, d: Key, inp: Input, base: nat)
    requires Sound(s) && d.kind == DirectoryService && Inv(s, d, base) && Recorded(s, Step(d, inp), d)
    requires InAttempt(PcOf(s, d)) && AttemptOf(s, Step(d, inp), d).None?
    ensures Inv(Move(s, d, inp), d, base)
  {
    hide Perform, CallOf, Resume, Int32;
    var pc := PcOf(s, d);
    assert ThreadOk(s.world, d, pc);
    var reply := Perform(s.world, CallOf(d, pc), inp).reply;
    NextStage(d, pc, reply);
    StatusAfter(s.world, d, pc, inp);
    if pc.At? && pc.stage.SnapStatus? {
      StatusWritten(s.world, d, pc, inp);
    } else {
      LeavesAttempt(d, pc, reply);
    }
  }

  lemma OtherStage(s: System, d: Key, inp: Input, base: nat)
    requires Sound(s) && d.kind == DirectoryService && Inv(s, d, base)
    requires !InAttempt(PcOf(s, d))
    ensures Inv(Move(s, d, inp), d, base)
  {
    hide Perform, CallOf, Resume, Int32;
    var pc := PcOf(s, d);
    assert ThreadOk(s.world, d, pc);
    var reply := Perform(s.world, CallOf(d, pc), inp).reply;
    NextStage(d, pc, reply);
    StatusAfter(s.world, d, pc, inp);
    CrSpecAfter(s.world, d, pc, inp);
    TimeIsClock(s.world, d, pc, inp);
  }

  /** Another custom resource's step does not touch the service's own. */
  lemma StrangersStep(s: System, d: Key, req: Key, inp: Input, base: nat)
    requires Sound(s) && d.kind == DirectoryService && req != d && Inv(s, d, base)
    ensures Inv(Move(s, req, inp), d, base)
  {
    hide Perform, CallOf, Resume, Int32;
    var pc := PcOf(s, req);
    assert ThreadOk(s.world, req, pc);
    StepStorage(s.world, req, pc, inp);
    if d in s.world.store {
      StepPreserves(s.world, req, pc, inp, d);
    } else {
      StepEffect(s.world, req, pc, inp);
    }
  }

  lemma OutsideStep(tools: Tools, s: System, l: Label, d: Key, base: nat)
    requires !l.Step? && !l.Crash? && d.kind == DirectoryService && Inv(s, d, base) && Recorded(s, l, d)
    ensures Inv(Do(tools, s, l), d, base)
  {
    hide Perform, CallOf, Resume, Int32;
    if !Touches(l, d) {
      OutsideKeeps(tools, s.world, l, d);
    }
  }

  lemma InvKept(tools: Tools, s: System, l: Label, d: Key, base: nat)
    requires Sound(s) && d.kind == DirectoryService && Inv(s, d, base) && Recorded(s, l, d)
    ensures var a := AttemptOf(s, l, d);
            && (a.Some? ==> a.value.now >= base + Int32(a.value.period * 60))
            && Inv(Do(tools, s, l), d, if a.Some? then a.value.now else base)
  {
    hide Move, Outside, Int32, Perform, Resume, CallOf;
    if l.Step? {
      assert l == Step(l.req, l.inp);
      if l.req != d {
        StrangersStep(s, d, l.req, l.inp, base);
      } else if AttemptOf(s, l, d).Some? {
        AttemptStep(s, d, l.inp, base);
      } else if InAttempt(PcOf(s, d)) {
        RestOfAttempt(s, d, l.inp, base);
      } else {
        OtherStage(s, d, l.inp, base);
      }
    } else if !l.Crash? {
      OutsideStep(tools, s, l, d, base);
    }
  }

  /** Each attempt comes at least its own period after the one before it, the first after `base`. */
  ghost predicate Spaced(base: nat, attempts: seq<Taking>)
    decreases |attempts|
  {
    attempts != [] ==>
      && attempts[0].now >= base + Int32(attempts[0].period * 60)
      && Spaced(attempts[0].now, attempts[1..])
  }

  lemma {:induction false} AttemptsSpaced(tools: Tools, s: System, run: seq<Label>, d: Key, base: nat)
    requires Sound(s) && d.kind == DirectoryService && Inv(s, d, base) && AllRecorded(tools, s, run, d)
    ensures Spaced(base, Attempts(tools, s, run, d))
    decreases |run|
  {
    hide Do, Inv, Recorded, AttemptOf, Int32;
    if run == [] {
    } else {
      var a := AttemptOf(s, run[0], d);
      SoundKept(tools, s, run[0]);
      InvKept(tools, s, run[0], d, base);
      AttemptsSpaced(tools, Do(tools, s, run[0]), run[1..], d, if a.Some? then a.value.now else base);
      if a.Some? {
        assert Attempts(tools, s, run, d)[1..] == Attempts(tools, Do(tools, s, run[0]), run[1..], d);
      } else {
        assert Attempts(tools, s, run, d) == Attempts(tools, Do(tools, s, run[0]), run[1..], d);
      }
    }
  }

  // --------------------------------------------------------------------------------- the rate

  /** n/d rounded up. */
  function Ceiling(n: int, d: int): nat
    requires d > 0
    decreases if n > 0 then n else 0
  {
    if n <= 0 then 0 else 1 + Ceiling(n - d, d)
  }

  lemma {:induction false} CeilingRoundsUp(n: int, d: int)
    requires d > 0 && n > 0
    ensures (Ceiling(n, d) - 1) * d < n <= Ceiling(n, d) * d
    decreases n
  {
    if n <= d {
    } else {
      CeilingRoundsUp(n - d, d);
    }
  }

  /** The attempts in the half-open window from `lo` to `hi`. */
  function Count(attempts: seq<Taking>, lo: int, hi: int): nat {
    if attempts == [] then 0
    else (if lo <= attempts[0].now < hi then 1 else 0) + Count(attempts[1..], lo, hi)
  }

  predicate PeriodsFrom(p: int, attempts: seq<Taking>) {
    forall i :: 0 <= i < |attempts| ==> p <= attempts[i].period <= MAX_PERIOD
  }

  lemma {:induction false} CeilingMonotone(m: int, n: int, d: int)
    requires d > 0 && m <= n
    ensures Ceiling(m, d) <= Ceiling(n, d)
    decreases if n > 0 then n else 0
  {
    if m <= 0 {
    } else {
      CeilingMonotone(m - d, n - d, d);
    }
  }

  lemma {:induction false} WindowBound(base: nat, attempts: seq<Taking>, p: int, lo: int, hi: int)
    requires p >= 1 && Spaced(base, attempts) && PeriodsFrom(p, attempts)
    ensures Count(attempts, lo, hi) <= Ceiling(hi - if lo > base + 60 * p then lo else base + 60 * p, 60 * p)
    decreases |attempts|
  {
    if attempts == [] {
    } else {
      var a, g := attempts[0], 60 * p;
      assert Int32(a.period * 60) == a.period * 60 >= g;
      var from, from' := if lo > base + g then lo else base + g, if lo > a.now + g then lo else a.now + g;
      assert PeriodsFrom(p, attempts[1..]) by {
        forall i | 0 <= i < |attempts[1..]| ensures p <= attempts[1..][i].period <= MAX_PERIOD {
          assert attempts[1..][i] == attempts[i + 1];
        }
      }
      WindowBound(a.now, attempts[1..], p, lo, hi);
      if lo <= a.now < hi {
        CeilingMonotone(hi - a.now, hi - from, g);
      } else {
        CeilingMonotone(hi - from', hi - from, g);
      }
    }
  }

  // ----------------------------------------------------------------- since the first enabled reconcile

  /** The step with which an enabled reconcile comes to its snapshots and reads the clock. */
  ghost predicate Enters(s: System, l: Label, d: Key) {
    l.Step? && l.req == d && PcOf(s, d).At? && PcOf(s, d).stage.SnapClock?
  }

  /** When the first enabled reconcile of the run read the clock. */
  ghost function FirstEnabled(tools: Tools, s: System, run: seq<Label>, d: Key): Option<nat>
    decreases |run|
  {
    if run == [] then None
    else if Enters(s, run[0], d) then Some(s.world.clock)
    else FirstEnabled(tools, Do(tools, s, run[0]), run[1..], d)
  }

  predicate Unrecorded(o: Object) {
    o.status.ServiceStatus? ==> o.status.lastSnapshot == 0
  }

  /** No enabled reconcile has come to its snapshots yet, so no time is recorded. */
  ghost predicate Fallow(s: System, d: Key) {
    var pc := PcOf(s, d);
    && (d in s.world.store ==> Unrecorded(s.world.store[d]))
    && !InAttempt(pc)
    && (pc.At? || pc.Creating? || pc.Updating? ==> Unrecorded(pc.cr) && !pc.stage.SnapFirst?)
  }

  lemma FallowStep(s: System, d: Key, inp: Input)
    requires Sound(s) && d.kind == DirectoryService && Fallow(s, d) && !Enters(s, Step(d, inp), d)
    ensures Fallow(Move(s, d, inp), d)
  {
    hide Perform, CallOf, Resume;
    var pc := PcOf(s, d);
    assert ThreadOk(s.world, d, pc);
    NextStage(d, pc, Perform(s.world, CallOf(d, pc), inp).reply);
    StatusAfter(s.world, d, pc, inp);
    CrSpecAfter(s.world, d, pc, inp);
  }

  lemma FallowOtherwise(tools: Tools, s: System, l: Label, d: Key)
    requires Sound(s) && d.kind == DirectoryService && Fallow(s, d) && Recorded(s, l, d) && !(l.Step? && l.req == d)
    ensures Fallow(Do(tools, s, l), d)
  {
    hide Perform, CallOf, Resume, JobRan, Provisioned, Fresh, Adjusted;
    if l.Step? {
      var pc := PcOf(s, l.req);
      assert ThreadOk(s.world, l.req, pc);
      if d in s.world.store {
        StepPreserves(s.world, l.req, pc, l.inp, d);
      } else {
        StepEffect(s.world, l.req, pc, l.inp);
      }
    } else if !l.Crash? && !Touches(l, d) {
      OutsideKeeps(tools, s.world, l, d);
    }
  }

  /** No attempt is made before an enabled reconcile, and all of them are spaced from the first one on. */
  lemma {:induction false} SpacedFromFirst(tools: Tools, s: System, run: seq<Label>, d: Key)
    requires Sound(s) && d.kind == DirectoryService && Fallow(s, d) && AllRecorded(tools, s, run, d)
    ensures var first := FirstEnabled(tools, s, run, d);
            if first.None? then Attempts(tools, s, run, d) == []
            else first.value >= s.world.clock && Spaced(first.value, Attempts(tools, s, run, d))
    decreases |run|
  {
    hide Do, Recorded, Spaced, Sound;
    if run == [] {
    } else if Enters(s, run[0], d) {
      AttemptsSpaced(tools, s, run, d, s.world.clock);
    } else {
      var s' := Do(tools, s, run[0]);
      SoundKept(tools, s, run[0]);
      if run[0].Step? && run[0].req == d {
        assert run[0] == Step(d, run[0].inp);
        FallowStep(s, d, run[0].inp);
        MoveIsDo(tools, s, run[0]);
      } else {
        FallowOtherwise(tools, s, run[0], d);
      }
      ClockGrows(tools, s, run[0]);
      SpacedFromFirst(tools, s', run[1..], d);
      assert AttemptOf(s, run[0], d).None?;
      assert Attempts(tools, s, run, d) == Attempts(tools, s', run[1..], d);
    }
  }

  lemma MoveIsDo(tools: Tools, s: System, l: Label)
    requires l.Step?
    ensures Do(tools, s, l) == Move(s, l.req, l.inp)
  {
  }

  /** Over every run in which the recorded times get written, through disabling and enabling, edits of the
      period, deletion and re-creation of the custom resource, and failed creations: the first attempt comes
      at least one period after the first enabled reconcile, attempts are spaced by the current period, and a
      window of `width` seconds sees at most width/(60p) attempts, rounded up, if the period never drops
      below `p`. */
  lemma SnapshotRate(tools: Tools, s: System, run: seq<Label>, d: Key, p: int, start: int, width: nat)
    requires Sound(s) && d !in s.threads && d.kind == DirectoryService && AllRecorded(tools, s, run, d)
    requires d in s.world.store ==> s.world.store[d].status == ServiceStatus(0)
    requires p >= 1 && PeriodsFrom(p, Attempts(tools, s, run, d))
    ensures var attempts, first := Attempts(tools, s, run, d), FirstEnabled(tools, s, run, d);
            && (attempts != [] ==> first.Some? && attempts[0].now >= first.value + 60 * attempts[0].period)
            && (first.Some? ==> first.value >= s.world.clock)
            && (forall i :: 0 <= i < |attempts| - 1 ==>
                  attempts[i + 1].now >= attempts[i].now + 60 * attempts[i + 1].period)
            && Count(attempts, start, start + width) <= Ceiling(width, 60 * p)
  {
    hide Attempts, AllRecorded, FirstEnabled;
    var attempts, first := Attempts(tools, s, run, d), FirstEnabled(tools, s, run, d);
    SpacedFromFirst(tools, s, run, d);
    if first.Some? {
      SpacedPairwise(first.value, attempts, p);
      WindowBound(first.value, attempts, p, start, start + width);
      CeilingMonotone(start + width - if start > first.value + 60 * p then start
          else first.value + 60 * p, width, 60 * p);
    }
  }

  lemma {:induction false} SpacedPairwise(base: nat, attempts: seq<Taking>, p: int)
    requires p >= 1 && Spaced(base, attempts) && PeriodsFrom(p, attempts)
    ensures attempts != [] ==> attempts[0].now >= base + 60 * attempts[0].period
    ensures forall i :: 0 <= i < |attempts| - 1 ==> attempts[i + 1].now >= attempts[i].now + 60 * attempts[i + 1].period
    decreases |attempts|
  {
    if attempts == [] {
    } else {
      var rest := attempts[1..];
      assert forall i :: 0 <= i < |rest| ==> rest[i] == attempts[i + 1];
      assert Int32(attempts[0].period * 60) == 60 * attempts[0].period;
      SpacedPairwise(attempts[0].now, rest, p);
      forall i | 0 <= i < |attempts| - 1
        ensures attempts[i + 1].now >= attempts[i].now + 60 * attempts[i + 1].period
      {
        if i > 0 {
          assert rest[i - 1 + 1].now >= rest[i - 1].now + 60 * rest[i - 1 + 1].period;
        }
      }
    }
  }

  // ------------------------------------------------------------------------- while snapshots are disabled

  predicate InSnapshotPart(pc: Pc) {
    (pc.At? || pc.Creating? || pc.Updating?) && (InSnapshots(pc.stage) || pc.stage.SnapCreate?)
  }

  predicate Disabled(o: Object) {
    o.spec.ServiceSpec? ==> !o.spec.schedule.enabled
  }

  /** The custom resource is disabled wherever it is, and no reconcile is at its snapshots. */
  ghost predicate Dormant(s: System, d: Key) {
    var pc := PcOf(s, d);
    && (d in s.world.store ==> Disabled(s.world.store[d]))
    && (pc.At? || pc.Creating? || pc.Updating? ==> Disabled(pc.cr))
    && !InSnapshotPart(pc)
  }

  lemma EntersIfEnabled(d: Key, pc: Pc, reply: Reply)
    requires Ready(d.kind, pc) && !pc.Finished? && d.kind == DirectoryService && !InSnapshotPart(pc)
    ensures InSnapshotPart(Resume(d, pc, reply)) ==> !pc.Start? && pc.cr.spec.schedule.enabled
  {
    hide Fresh, Resolve, Adjusted, Synchronised;
  }

  lemma DormantStep(s: System, d: Key, inp: Input)
    requires Sound(s) && d.kind == DirectoryService && Dormant(s, d)
    ensures Dormant(Move(s, d, inp), d)
    ensures forall key: Key :: key.kind == Snapshot ==>
              var store, store' := s.world.store, Move(s, d, inp).world.store;
              (key in store <==> key in store') && (key in store ==> store'[key] == store[key])
  {
    hide Perform, CallOf, Resume;
    var pc := PcOf(s, d);
    assert ThreadOk(s.world, d, pc);
    EntersIfEnabled(d, pc, Perform(s.world, CallOf(d, pc), inp).reply);
    CrSpecAfter(s.world, d, pc, inp);
    StepEffect(s.world, d, pc, inp);
  }

  lemma DormantOtherwise(tools: Tools, s: System, l: Label, d: Key)
    requires Sound(s) && d.kind == DirectoryService && Dormant(s, d) && !(l.Step? && l.req == d)
    requires l.Edit? && l.key == d ==> Disabled(l.obj)
    ensures Dormant(Do(tools, s, l), d)
  {
    hide Perform, CallOf, Resume, JobRan, Provisioned;
    if l.Step? {
      var pc := PcOf(s, l.req);
      assert ThreadOk(s.world, l.req, pc);
      if d in s.world.store {
        StepPreserves(s.world, l.req, pc, l.inp, d);
      } else {
        hide Fresh, Adjusted;
        StepEffect(s.world, l.req, pc, l.inp);
      }
    } else if !l.Crash? && !Touches(l, d) {
      OutsideKeeps(tools, s.world, l, d);
    }
  }

  lemma {:induction false} StaysDormant(tools: Tools, s: System, run: seq<Label>, d: Key)
    requires Sound(s) && d.kind == DirectoryService && Dormant(s, d)
    requires forall i :: 0 <= i < |run| && run[i].Edit? && run[i].key == d ==> Disabled(run[i].obj)
    ensures Dormant(Exec(tools, s, run), d)
    decreases |run|
  {
    hide Do, Sound, Dormant;
    if run == [] {
    } else {
      SoundKept(tools, s, run[0]);
      if run[0].Step? && run[0].req == d {
        MoveIsDo(tools, s, run[0]);
        DormantStep(s, d, run[0].inp);
      } else {
        DormantOtherwise(tools, s, run[0], d);
      }
      StaysDormant(tools, Do(tools, s, run[0]), run[1..], d);
    }
  }

  /** Over every run in which snapshots stay disabled, no step of the service creates, changes or deletes any
      snapshot. */
  lemma NoSnapshotsWhenDisabled(tools: Tools, s: System, run: seq<Label>, d: Key, inp: Input, key: Key)
    requires Sound(s) && d.kind == DirectoryService && d !in s.threads
    requires d in s.world.store ==> Disabled(s.world.store[d])
    requires forall i :: 0 <= i < |run| && run[i].Edit? && run[i].key == d ==> Disabled(run[i].obj)
    requires key.kind == Snapshot
    ensures var store, store' := Exec(tools, s, run).world.store, Exec(tools, s, run + [Step(d, inp)]).world.store;
            (key in store <==> key in store') && (key in store ==> store'[key] == store[key])
  {
    hide Exec, Move, Sound, Dormant;
    assert Dormant(s, d) by { DormantAtFirst(s, d); }
    SoundRuns(tools, s, run);
    StaysDormant(tools, s, run, d);
    ExecOne(tools, s, run, Step(d, inp));
    DormantStep(Exec(tools, s, run), d, inp);
  }

  lemma DormantAtFirst(s: System, d: Key)
    requires d !in s.threads && (d in s.world.store ==> Disabled(s.world.store[d]))
    ensures Dormant(s, d)
  {
  }
}
