/** Password synchronisation over whole runs, whatever else goes on in the cluster (controllers/passwords.go). */
module PasswordRuns {
  import opened Text
  import opened Cluster
  import opened Listing
  import opened Controllers
  import opened Runs
  import opened Separation
  import opened Passwords

  predicate SamePasswords(spec: Spec, cr: Object)
    requires cr.spec.ServiceSpec?
  {
    spec.ServiceSpec? && spec.passwords == cr.spec.passwords
  }

  /** A password on its way to the directory is the one its secret holds; `cr` fixes the password table. */
  ghost predicate PcInv(store: Store, d: Key, cr: Object, pc: Pc)
    requires Typed(DirectoryService, cr)
  {
    pc.At? || pc.Creating? || pc.Updating? ==>
      && SamePasswords(pc.cr.spec, cr)
      && (pc.At? && pc.stage.PassLookup? ==> Managed(cr, pc.stage.dn))
      && (pc.At? && (pc.stage.PassBind? || pc.stage.PassSet?) ==>
            Managed(cr, pc.stage.dn) && Wanted(store, d, cr, pc.stage.dn) == Some(pc.stage.password))
  }

  ghost predicate Inv(s: System, d: Key, cr: Object)
    requires Typed(DirectoryService, cr)
  {
    && PcInv(s.world.store, d, cr, PcOf(s, d))
    && (d in s.world.store ==> SamePasswords(s.world.store[d].spec, cr))
    && AllNonEmpty(s.world, d, cr)
  }

  /** A secret that the password table refers to. */
  ghost predicate Referenced(d: Key, cr: Object, key: Key)
    requires Typed(DirectoryService, cr)
  {
    exists dn :: dn in cr.spec.passwords && key == SecretKey(d, cr, dn)
  }

  function SecretKey(d: Key, cr: Object, dn: string): Key
    requires Typed(DirectoryService, cr) && dn in cr.spec.passwords
  {
    Key(Secret, d.namespace, cr.spec.passwords[dn].secretName)
  }

  /** Nobody touches the secrets that the password table refers to, the table itself, or the accounts. */
  ghost predicate Permitted(l: Label, d: Key, cr: Object)
    requires Typed(DirectoryService, cr)
  {
    && (l.Step? ==> IsCustom(l.req.kind))
    && (l.Edit? || l.Remove? ==> !Referenced(d, cr, l.key))
    && (l.Edit? && l.key == d ==> SamePasswords(l.obj.spec, cr))
    && (l.Enroll? ==> l.account != Account(d.namespace, d.name, l.account.dn))
  }

  /** Equal secrets mean equal wanted values. */
  ghost predicate SameSecrets(store: Store, store': Store, d: Key, cr: Object)
    requires Typed(DirectoryService, cr)
  {
    forall dn :: dn in cr.spec.passwords ==>
      var key := SecretKey(d, cr, dn);
      (key in store <==> key in store') && (key in store ==> store'[key] == store[key])
  }

  lemma SameWanted(store: Store, store': Store, d: Key, cr: Object, dn: string)
    requires Typed(DirectoryService, cr) && dn in cr.spec.passwords && SameSecrets(store, store', d, cr)
    ensures Wanted(store', d, cr, dn) == Wanted(store, d, cr, dn)
  {
    assert SecretKey(d, cr, dn) in store <==> SecretKey(d, cr, dn) in store';
  }

  lemma StepKeepsSecrets(w: World, req: Key, pc: Pc, inp: Input, d: Key, cr: Object)
    requires ThreadOk(w, req, pc) && IsCustom(req.kind) && Typed(DirectoryService, cr)
    ensures SameSecrets(w.store, Perform(w, CallOf(req, pc), inp).world.store, d, cr)
  {
    hide Perform, CallOf, Fresh, Adjusted;
    StepEffect(w, req, pc, inp);
  }

  lemma OutsideKeepsSecrets(tools: Tools, w: World, l: Label, d: Key, cr: Object)
    requires !l.Step? && !l.Crash? && Typed(DirectoryService, cr) && Permitted(l, d, cr)
    ensures SameSecrets(w.store, Outside(tools, w, l).store, d, cr)
  {
    forall dn | dn in cr.spec.passwords
      ensures var key, store := SecretKey(d, cr, dn), Outside(tools, w, l).store;
              (key in w.store <==> key in store) && (key in w.store ==> store[key] == w.store[key])
    {
      hide Outside;
      assert Referenced(d, cr, SecretKey(d, cr, dn));
      OutsideKeeps(tools, w, l, SecretKey(d, cr, dn));
    }
  }

  /** The directory changes only where a reconcile sets a password. */
  lemma PasswordChange(w: World, req: Key, pc: Pc, inp: Input)
    requires ThreadOk(w, req, pc)
    ensures var passwords := Perform(w, CallOf(req, pc), inp).world.passwords;
            || passwords == w.passwords
            || (&& pc.At? && pc.stage.PassSet?
                && var account := Account(req.namespace, req.name, pc.stage.dn);
                   && account in w.passwords
                   && passwords == w.passwords[account := if pc.stage.password == "" then inp.generated
                         else pc.stage.password])
  {
    hide Fresh, Adjusted;
    if !(pc.At? && pc.stage.PassSet?) {
      assert !CallOf(req, pc).SetPassword?;
    }
  }

  lemma WrongUnchanged(w: World, w': World, d: Key, cr: Object)
    requires Typed(DirectoryService, cr) && SameSecrets(w.store, w'.store, d, cr)
    requires forall dn: string :: Account(d.namespace, d.name, dn) in w.passwords ==>
               var account := Account(d.namespace, d.name, dn);
               account in w'.passwords && w'.passwords[account] == w.passwords[account]
    ensures Wrong(w', d, cr) <= Wrong(w, d, cr)
  {
    forall dn | dn in cr.spec.passwords
      ensures Wanted(w'.store, d, cr, dn) == Wanted(w.store, d, cr, dn)
    {
      SameWanted(w.store, w'.store, d, cr, dn);
    }
  }

  lemma WrongShrinks(w: World, w': World, d: Key, cr: Object, dn: string, password: string)
    requires Typed(DirectoryService, cr) && SameSecrets(w.store, w'.store, d, cr)
    requires Managed(cr, dn) && Wanted(w.store, d, cr, dn) == Some(password)
    requires w'.passwords == w.passwords[Account(d.namespace, d.name, dn) := password]
    ensures Wrong(w', d, cr) <= Wrong(w, d, cr) - {dn}
  {
    forall x | x in cr.spec.passwords
      ensures Wanted(w'.store, d, cr, x) == Wanted(w.store, d, cr, x)
    {
      SameWanted(w.store, w'.store, d, cr, x);
    }
  }

  /** What a reconcile of the service takes from one call to the next. */
  lemma PcNext(w: World, d: Key, cr: Object, pc: Pc, inp: Input)
    requires ThreadOk(w, d, pc) && d.kind == DirectoryService && Typed(DirectoryService, cr)
    requires PcInv(w.store, d, cr, pc)
    requires d in w.store ==> SamePasswords(w.store[d].spec, cr)
    ensures var a := Perform(w, CallOf(d, pc), inp);
            PcInv(a.world.store, d, cr, Resume(d, pc, a.reply))
  {
    hide Perform, Resume, CallOf, Wanted;
    var a := Perform(w, CallOf(d, pc), inp);
    var next := Resume(d, pc, a.reply);
    CrSpecAfter(w, d, pc, inp);
    StepKeepsSecrets(w, d, pc, inp, d, cr);
    LoopNext(w, d, pc, inp);
    if next.At? && (next.stage.PassBind? || next.stage.PassSet?) {
      SameWanted(w.store, a.world.store, d, cr, next.stage.dn);
      SameTable(w.store, d, pc.cr, cr, next.stage.dn);
    }
  }

  lemma SameTable(store: Store, d: Key, cr: Object, cr': Object, dn: string)
    requires Typed(DirectoryService, cr) && Typed(DirectoryService, cr') && SamePasswords(cr.spec, cr')
    requires dn in cr.spec.passwords
    ensures Wanted(store, d, cr, dn) == Wanted(store, d, cr', dn)
  {
  }

  lemma LoopNext(w: World, d: Key, pc: Pc, inp: Input)
    requires ThreadOk(w, d, pc) && d.kind == DirectoryService
    ensures var next := Resume(d, pc, Perform(w, CallOf(d, pc), inp).reply);
            && (next.At? && next.stage.PassLookup? ==>
                  pc.At? && pc.stage.PassChoose? && next.cr == pc.cr && Managed(pc.cr, next.stage.dn))
            && (next.At? && next.stage.PassBind? ==>
                  && pc.At? && pc.stage.PassLookup? && next.cr == pc.cr && next.stage.dn == pc.stage.dn
                  && Wanted(w.store, d, pc.cr, pc.stage.dn) == Some(next.stage.password))
            && (next.At? && next.stage.PassSet? ==>
                  && pc.At? && pc.stage.PassBind? && next.cr == pc.cr && next.stage.dn == pc.stage.dn
                  && next.stage.password == pc.stage.password)
  {
    if pc.At? && InLoop(pc) {
      hide Upserted, Looked, Scheduled, Fresh, Resolve;
      if pc.stage.PassLookup? {
        LookupStep(w, d, pc.cr, pc, inp);
      }
    } else {
      hide Perform, Fresh, Resolve, Adjusted;
      NotYetInLoop(d, pc, Perform(w, CallOf(d, pc), inp).reply);
    }
  }

  lemma NotYetInLoop(d: Key, pc: Pc, reply: Reply)
    requires Ready(d.kind, pc) && !pc.Finished? && !InLoop(pc)
    ensures var next := Resume(d, pc, reply);
            next.At? ==> !next.stage.PassLookup? && !next.stage.PassBind? && !next.stage.PassSet?
  {
    hide Fresh, Resolve, Adjusted;
  }

  lemma StepKeepsInv(s: System, req: Key, inp: Input, d: Key, cr: Object)
    requires Sound(s) && d.kind == DirectoryService && IsCustom(req.kind) && Typed(DirectoryService, cr)
    requires Inv(s, d, cr)
    ensures Inv(Move(s, req, inp), d, cr)
  {
    hide Perform, CallOf, Resume, Wanted;
    var pc, w, w' := PcOf(s, req), s.world, Move(s, req, inp).world;
    assert ThreadOk(w, req, pc);
    StepKeepsSecrets(w, req, pc, inp, d, cr);
    forall dn | dn in cr.spec.passwords
      ensures Wanted(w'.store, d, cr, dn) == Wanted(w.store, d, cr, dn)
    {
      SameWanted(w.store, w'.store, d, cr, dn);
    }
    if d in w.store {
      StepPreserves(w, req, pc, inp, d);
    } else {
      hide Wanted, Fresh, Adjusted, Target, SameSecrets;
      StepEffect(w, req, pc, inp);
    }
    if req == d {
      PcNext(w, d, cr, pc, inp);
    }
  }

  lemma StepNeverHarms(s: System, req: Key, inp: Input, d: Key, cr: Object)
    requires Sound(s) && d.kind == DirectoryService && IsCustom(req.kind) && Typed(DirectoryService, cr)
    requires Inv(s, d, cr)
    ensures Wrong(Move(s, req, inp).world, d, cr) <= Wrong(s.world, d, cr)
  {
    hide Perform, CallOf, Resume, Wrong;
    var pc, w, w' := PcOf(s, req), s.world, Move(s, req, inp).world;
    assert ThreadOk(w, req, pc);
    StepKeepsSecrets(w, req, pc, inp, d, cr);
    PasswordChange(w, req, pc, inp);
    hide SameSecrets, Wanted;
    if w'.passwords != w.passwords && req == d {
      assert Wanted(w.store, d, cr, pc.stage.dn) != Some("");
      WrongShrinks(w, w', d, cr, pc.stage.dn, pc.stage.password);
    } else {
      WrongUnchanged(w, w', d, cr);
    }
  }

  lemma OutsideKept(tools: Tools, s: System, l: Label, d: Key, cr: Object)
    requires !l.Step? && !l.Crash? && d.kind == DirectoryService && Typed(DirectoryService, cr)
    requires Inv(s, d, cr) && Permitted(l, d, cr)
    ensures Inv(Do(tools, s, l), d, cr)
    ensures Wrong(Do(tools, s, l).world, d, cr) <= Wrong(s.world, d, cr)
  {
    hide Wanted, Wrong;
    var w, w' := s.world, Outside(tools, s.world, l);
    OutsideKeepsSecrets(tools, w, l, d, cr);
    forall dn | dn in cr.spec.passwords
      ensures Wanted(w'.store, d, cr, dn) == Wanted(w.store, d, cr, dn)
    {
      SameWanted(w.store, w'.store, d, cr, dn);
    }
    if !Touches(l, d) {
      OutsideKeeps(tools, w, l, d);
    }
    OutsidePasswords(tools, w, l, d, cr);
    WrongUnchanged(w, w', d, cr);
  }

  lemma OutsidePasswords(tools: Tools, w: World, l: Label, d: Key, cr: Object)
    requires !l.Step? && !l.Crash? && Typed(DirectoryService, cr) && Permitted(l, d, cr)
    ensures var passwords := Outside(tools, w, l).passwords;
            forall dn: string :: Account(d.namespace, d.name, dn) in w.passwords ==>
              var account := Account(d.namespace, d.name, dn);
              account in passwords && passwords[account] == w.passwords[account]
  {
  }

  ghost predicate AllPermitted(run: seq<Label>, d: Key, cr: Object)
    requires Typed(DirectoryService, cr)
  {
    forall i :: 0 <= i < |run| ==> Permitted(run[i], d, cr)
  }

  /** Over every run, with reconciles of all kinds interleaved, failing, retrying and restarting: the managed
      accounts of a service that do not have their secret's value only ever get fewer. */
  lemma {:induction false} WrongPasswordsNeverGrow(tools: Tools, s: System, run: seq<Label>, d: Key, cr: Object)
    requires Sound(s) && d.kind == DirectoryService && Typed(DirectoryService, cr) && Inv(s, d, cr)
    requires AllPermitted(run, d, cr)
    ensures Inv(Exec(tools, s, run), d, cr)
    ensures Wrong(Exec(tools, s, run).world, d, cr) <= Wrong(s.world, d, cr)
    decreases |run|
  {
    hide Inv, Permitted, Wrong, Move, Outside;
    if run == [] {
    } else {
      var l, s' := run[0], Do(tools, s, run[0]);
      assert Permitted(l, d, cr);
      SoundKept(tools, s, l);
      if l.Step? {
        CustomOnly(l, d, cr);
        StepKeepsInv(s, l.req, l.inp, d, cr);
        StepNeverHarms(s, l.req, l.inp, d, cr);
      } else if l.Crash? {
        CrashKept(s, d, cr);
      } else {
        OutsideKept(tools, s, l, d, cr);
      }
      WrongPasswordsNeverGrow(tools, s', run[1..], d, cr);
    }
  }

  lemma CustomOnly(l: Label, d: Key, cr: Object)
    requires Typed(DirectoryService, cr) && Permitted(l, d, cr) && l.Step?
    ensures IsCustom(l.req.kind)
  {
  }

  lemma CrashKept(s: System, d: Key, cr: Object)
    requires Typed(DirectoryService, cr) && Inv(s, d, cr)
    ensures Inv(s.(threads := map[]), d, cr)
  {
  }

  // ------------------------------------------------------------ the accounts that the directory sets up

  /** The password on its way to the directory, if any, is not one of `uid=admin` or `uid=monitor`. */
  predicate Spares(pc: Pc) {
    pc.At? && (pc.stage.PassLookup? || pc.stage.PassBind? || pc.stage.PassSet?) ==>
      pc.stage.dn !in {"uid=admin", "uid=monitor"}
  }

  ghost predicate AllSpare(s: System) {
    forall req :: req in s.threads ==> Spares(s.threads[req])
  }

  lemma SparesNext(w: World, req: Key, pc: Pc, inp: Input)
    requires ThreadOk(w, req, pc) && Spares(pc)
    ensures Spares(Resume(req, pc, Perform(w, CallOf(req, pc), inp).reply))
  {
    hide Perform, CallOf, Resume, Wanted;
    if req.kind == DirectoryService {
      LoopNext(w, req, pc, inp);
    } else {
      NoLoop(req, pc, Perform(w, CallOf(req, pc), inp).reply);
    }
  }

  lemma NoLoop(req: Key, pc: Pc, reply: Reply)
    requires Ready(req.kind, pc) && !pc.Finished? && req.kind != DirectoryService
    ensures !InLoop(Resume(req, pc, reply))
  {
    hide Fresh, Resolve, Adjusted, Scheduled, Synchronised;
  }

  lemma SetUpStep(s: System, req: Key, inp: Input, account: Account)
    requires Sound(s) && AllSpare(s) && account in s.world.passwords && account.dn in {"uid=admin", "uid=monitor"}
    ensures AllSpare(Move(s, req, inp))
    ensures var passwords := Move(s, req, inp).world.passwords;
            account in passwords && passwords[account] == s.world.passwords[account]
  {
    hide Perform, CallOf, Resume;
    var pc := PcOf(s, req);
    assert ThreadOk(s.world, req, pc);
    SparesNext(s.world, req, pc, inp);
    PasswordChange(s.world, req, pc, inp);
  }

  lemma OutsideEnrolls(tools: Tools, w: World, l: Label, account: Account)
    requires !l.Step? && !l.Crash? && account in w.passwords && !(l.Enroll? && l.account == account)
    ensures var passwords := Outside(tools, w, l).passwords;
            account in passwords && passwords[account] == w.passwords[account]
  {
  }

  /** Over every run of reconciles of any services, whatever the secrets hold and whatever fails, the accounts
      `uid=admin` and `uid=monitor` keep their passwords unless the directory itself changes them. */
  lemma {:induction false} SetUpAccountsUntouched(tools: Tools, s: System, run: seq<Label>, account: Account)
    requires Sound(s) && AllSpare(s) && account in s.world.passwords && account.dn in {"uid=admin", "uid=monitor"}
    requires forall i :: 0 <= i < |run| && run[i].Enroll? ==> run[i].account != account
    ensures var passwords := Exec(tools, s, run).world.passwords;
            account in passwords && passwords[account] == s.world.passwords[account]
    decreases |run|
  {
    hide Sound, Move, Outside, AllSpare;
    if run == [] {
    } else {
      var l := run[0];
      SoundKept(tools, s, l);
      if l.Step? {
        SetUpStep(s, l.req, l.inp, account);
      } else if l.Crash? {
        NoThreadSpares(s);
      } else {
        OutsideEnrolls(tools, s.world, l, account);
        SameThreadsSpare(s, Outside(tools, s.world, l));
      }
      SetUpAccountsUntouched(tools, Do(tools, s, l), run[1..], account);
    }
  }

  lemma NoThreadSpares(s: System)
    ensures AllSpare(s.(threads := map[]))
  {
  }

  lemma SameThreadsSpare(s: System, w: World)
    requires AllSpare(s)
    ensures AllSpare(s.(world := w))
  {
  }
}
