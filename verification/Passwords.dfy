/** Synchronising the passwords of a directory with their secrets (controllers/passwords.go). */
module Passwords {
  import opened Text
  import opened Cluster
  import opened Controllers
  import opened Pruning

  /** The value the secret of an account holds; a missing key reads as the empty password. */
  function Wanted(store: Store, d: Key, cr: Object, dn: string): Option<string>
    requires Typed(DirectoryService, cr) && dn in cr.spec.passwords
  {
    var key := Key(Secret, d.namespace, cr.spec.passwords[dn].secretName);
    if key !in store || !Typed(Secret, store[key]) then None
    else
      var data := store[key].spec.data;
      Some(if cr.spec.passwords[dn].key in data then data[cr.spec.passwords[dn].key] else "")
  }

  /** All accounts of the table but the two that the directory itself sets up. */
  predicate Managed(cr: Object, dn: string)
    requires Typed(DirectoryService, cr)
  {
    dn in cr.spec.passwords && dn !in {"uid=admin", "uid=monitor"}
  }

  predicate InLoop(pc: Pc) {
    pc.At? && (pc.stage.PassChoose? || pc.stage.PassLookup? || pc.stage.PassBind? || pc.stage.PassSet?)
  }

  /** The password loop by itself, with one input for each call. */
  ghost function Pass(w: World, d: Key, pc: Pc, inputs: seq<Input>): Stop
    requires Ready(d.kind, pc)
    decreases |inputs|
  {
    if inputs == [] || !InLoop(pc) then Stop(pc, w)
    else
      var a := Perform(w, CallOf(d, pc), inputs[0]);
      Pass(a.world, d, Resume(d, pc, a.reply), inputs[1..])
  }

  /** The accounts a pass has dealt with. */
  function Settled(cr: Object, pc: Pc): set<string>
    requires Typed(DirectoryService, cr)
  {
    var all := cr.spec.passwords.Keys;
    if !pc.At? then {}
    else match pc.stage
         case PassChoose(todo, _) => all - todo
         case PassLookup(dn, todo, _) => all - todo - {dn}
         case PassBind(dn, _, todo, _) => all - todo - {dn}
         case PassSet(dn, _, todo, _) => all - todo - {dn}
         case UpdateCr(_) => all
         case _ => {}
  }

  /** The account has its secret's value; where that is empty, the server has made one up. */
  predicate InSync(w: World, d: Key, cr: Object, dn: string)
    requires Typed(DirectoryService, cr) && dn in cr.spec.passwords
  {
    var account := Account(d.namespace, d.name, dn);
    && Wanted(w.store, d, cr, dn).Some? && account in w.passwords
    && (if Wanted(w.store, d, cr, dn).value != "" then w.passwords[account] == Wanted(w.store, d, cr, dn).value
        else w.passwords[account] != "")
  }

  /** Nothing but passwords differs, and a password that differs belongs to a managed account and is, unless
      its secret is empty, the wanted one. */
  ghost predicate OnlySynced(w: World, w': World, d: Key, cr: Object)
    requires Typed(DirectoryService, cr)
  {
    && w' == w.(passwords := w'.passwords)
    && w'.passwords.Keys == w.passwords.Keys
    && forall account :: account in w.passwords && w'.passwords[account] != w.passwords[account] ==>
         && account == Account(d.namespace, d.name, account.dn) && Managed(cr, account.dn)
         && Wanted(w.store, d, cr, account.dn).Some?
         && (Wanted(w.store, d, cr, account.dn).value != "" ==>
               w'.passwords[account] == Wanted(w.store, d, cr, account.dn).value)
  }

  ghost predicate Inv(w0: World, w: World, d: Key, cr: Object, pc: Pc)
    requires Typed(DirectoryService, cr)
  {
    && OnlySynced(w0, w, d, cr)
    && (forall dn :: dn in Settled(cr, pc) && dn !in {"uid=admin", "uid=monitor"} ==> InSync(w, d, cr, dn))
    && (pc.At? ==> pc.cr == cr)
    && (pc.At? && (pc.stage.PassLookup? || pc.stage.PassBind? || pc.stage.PassSet?) ==> Managed(cr, pc.stage.dn))
    && (pc.At? && (pc.stage.PassBind? || pc.stage.PassSet?) ==>
          Wanted(w.store, d, cr, pc.stage.dn) == Some(pc.stage.password))
  }

  /** Setting a password to the wanted value puts this account in order and no other out of order. */
  lemma SetStep(w0: World, w: World, d: Key, cr: Object, pc: Pc, inp: Input)
    requires d.kind == DirectoryService && Typed(DirectoryService, cr) && Ready(d.kind, pc) && InLoop(pc)
    requires Inv(w0, w, d, cr, pc) && pc.stage.PassSet?
    ensures var a := Perform(w, CallOf(d, pc), inp);
            && OnlySynced(w0, a.world, d, cr)
            && (forall dn :: dn in Settled(cr, pc) && dn !in {"uid=admin", "uid=monitor"} ==>
                  InSync(a.world, d, cr, dn))
            && (a.reply.Done? ==> InSync(a.world, d, cr, pc.stage.dn))
            && a.world.store == w.store
  {
    var a := Perform(w, CallOf(d, pc), inp);
    assert CallOf(d, pc) == SetPassword(Account(d.namespace, d.name, pc.stage.dn), pc.stage.password);
    assert a.world.passwords.Keys == w.passwords.Keys;
  }

  /** A bind that succeeds shows that the account is in order. */
  lemma BindStep(w: World, d: Key, cr: Object, pc: Pc, inp: Input)
    requires d.kind == DirectoryService && Typed(DirectoryService, cr) && Ready(d.kind, pc)
    requires pc.At? && pc.stage.PassBind? && pc.cr == cr && pc.stage.dn in cr.spec.passwords
    requires Wanted(w.store, d, cr, pc.stage.dn) == Some(pc.stage.password)
    ensures var a := Perform(w, CallOf(d, pc), inp);
            a.world == w && (a.reply.Done? ==> InSync(w, d, cr, pc.stage.dn))
  {
  }

  lemma LookupStep(w: World, d: Key, cr: Object, pc: Pc, inp: Input)
    requires d.kind == DirectoryService && Typed(DirectoryService, cr) && Ready(d.kind, pc)
    requires pc.At? && pc.stage.PassLookup? && pc.cr == cr
    ensures var a := Perform(w, CallOf(d, pc), inp);
            var next := Resume(d, pc, a.reply);
            && a.world == w
            && (next.Finished? ||
                (&& next.At? && next.cr == cr && next.stage.PassBind? && next.stage.dn == pc.stage.dn
                 && next.stage.todo == pc.stage.todo
                 && Wanted(w.store, d, cr, pc.stage.dn) == Some(next.stage.password)))
  {
  }

  lemma AfterAccount(cr: Object, todo: set<string>, now: nat)
    requires Typed(DirectoryService, cr) && todo <= cr.spec.passwords.Keys
    ensures var next := NextAccount(cr, todo, now);
            && Settled(cr, next) <= cr.spec.passwords.Keys - todo
            && (next.At? ==> next.cr == cr && (next.stage.PassChoose? || next.stage.UpdateCr?))
  {
  }

  lemma AfterBind(w0: World, w: World, d: Key, cr: Object, pc: Pc, inp: Input)
    requires d.kind == DirectoryService && Typed(DirectoryService, cr) && Ready(d.kind, pc)
    requires Inv(w0, w, d, cr, pc) && pc.At? && (pc.stage.PassBind? || pc.stage.PassLookup?)
    ensures var a := Perform(w, CallOf(d, pc), inp);
            Inv(w0, a.world, d, cr, Resume(d, pc, a.reply))
  {
    hide Perform, CallOf, OnlySynced, InSync, Wanted, NextAccount;
    if pc.stage.PassBind? {
      BindStep(w, d, cr, pc, inp);
      AfterAccount(cr, pc.stage.todo, pc.stage.now);
    } else {
      LookupStep(w, d, cr, pc, inp);
    }
  }

  lemma AfterSet(w0: World, w: World, d: Key, cr: Object, pc: Pc, inp: Input)
    requires d.kind == DirectoryService && Typed(DirectoryService, cr) && Ready(d.kind, pc)
    requires Inv(w0, w, d, cr, pc) && pc.At? && pc.stage.PassSet?
    ensures var a := Perform(w, CallOf(d, pc), inp);
            Inv(w0, a.world, d, cr, Resume(d, pc, a.reply))
  {
    hide Perform, CallOf, OnlySynced, InSync, Wanted, NextAccount;
    SetStep(w0, w, d, cr, pc, inp);
    AfterAccount(cr, pc.stage.todo, pc.stage.now);
  }

  lemma InvKept(w0: World, w: World, d: Key, cr: Object, pc: Pc, inp: Input)
    requires d.kind == DirectoryService && Typed(DirectoryService, cr) && Ready(d.kind, pc) && InLoop(pc)
    requires Inv(w0, w, d, cr, pc)
    ensures var a := Perform(w, CallOf(d, pc), inp);
            Inv(w0, a.world, d, cr, Resume(d, pc, a.reply))
  {
    if pc.stage.PassChoose? {
      hide OnlySynced, InSync, Wanted, NextAccount;
      var reply := Perform(w, CallOf(d, pc), inp).reply;
      if reply.Chosen? {
        AfterAccount(cr, pc.stage.todo - {reply.dn}, pc.stage.now);
      }
    } else if pc.stage.PassSet? {
      hide Inv, Perform, CallOf, Resume;
      AfterSet(w0, w, d, cr, pc, inp);
    } else {
      hide Inv, Perform, CallOf, Resume;
      AfterBind(w0, w, d, cr, pc, inp);
    }
  }

  lemma {:induction false} PassKeeps(w0: World, w: World, d: Key, cr: Object, pc: Pc, inputs: seq<Input>)
    requires d.kind == DirectoryService && Typed(DirectoryService, cr) && Ready(d.kind, pc)
    requires Inv(w0, w, d, cr, pc)
    ensures var stop := Pass(w, d, pc, inputs);
            Inv(w0, stop.world, d, cr, stop.pc)
    decreases |inputs|
  {
    hide Inv, Perform, CallOf, Resume;
    if inputs == [] || !InLoop(pc) {
    } else {
      InvKept(w0, w, d, cr, pc, inputs[0]);
      var a := Perform(w, CallOf(d, pc), inputs[0]);
      PassKeeps(w0, a.world, d, cr, Resume(d, pc, a.reply), inputs[1..]);
    }
  }

  /** The managed accounts that do not have their secret's value. */
  ghost function Wrong(w: World, d: Key, cr: Object): set<string>
    requires Typed(DirectoryService, cr)
  {
    set dn | dn in cr.spec.passwords && dn !in {"uid=admin", "uid=monitor"}
             && !(var account := Account(d.namespace, d.name, dn);
                  account in w.passwords && Wanted(w.store, d, cr, dn) == Some(w.passwords[account]))
  }

  ghost predicate AllNonEmpty(w: World, d: Key, cr: Object)
    requires Typed(DirectoryService, cr)
  {
    forall dn :: dn in cr.spec.passwords && dn !in {"uid=admin", "uid=monitor"} ==>
        Wanted(w.store, d, cr, dn) != Some("")
  }

  /** For every order of iteration and whichever calls fail: a pass changes nothing but passwords of managed
      accounts, and none of them from right to wrong; so the wrong ones never grow in number over retries. */
  lemma PassNeverHarms(w: World, d: Key, cr: Object, now: nat, inputs: seq<Input>)
    requires d.kind == DirectoryService && Typed(DirectoryService, cr) && AllNonEmpty(w, d, cr)
    ensures var stop := Pass(w, d, NextAccount(cr, cr.spec.passwords.Keys, now), inputs);
            && OnlySynced(w, stop.world, d, cr)
            && Wrong(stop.world, d, cr) <= Wrong(w, d, cr)
  {
    hide NextAccount, Pass, Wrong, Wanted;
    var pc := NextAccount(cr, cr.spec.passwords.Keys, now);
    AfterAccount(cr, cr.spec.passwords.Keys, now);
    PassKeeps(w, w, d, cr, pc, inputs);
    SyncedOnly(w, Pass(w, d, pc, inputs).world, d, cr);
  }

  /** Whatever the secrets hold, in whatever order and whichever calls fail, a pass leaves the passwords of
      `uid=admin` and `uid=monitor` as they are, and all passwords of other services. */
  lemma SetUpAccountsKept(w: World, d: Key, cr: Object, now: nat, inputs: seq<Input>, account: Account)
    requires d.kind == DirectoryService && Typed(DirectoryService, cr) && account in w.passwords
    requires account.dn in {"uid=admin", "uid=monitor"} || account.namespace != d.namespace || account.service != d.name
    ensures var passwords := Pass(w, d, NextAccount(cr, cr.spec.passwords.Keys, now), inputs).world.passwords;
            account in passwords && passwords[account] == w.passwords[account]
  {
    hide NextAccount, Pass, Wrong, Wanted;
    AfterAccount(cr, cr.spec.passwords.Keys, now);
    PassKeeps(w, w, d, cr, NextAccount(cr, cr.spec.passwords.Keys, now), inputs);
  }

  /** Changing only what is out of order, and only to the wanted value, leaves no more wrong than before. */
  lemma SyncedOnly(w: World, w': World, d: Key, cr: Object)
    requires Typed(DirectoryService, cr) && AllNonEmpty(w, d, cr) && OnlySynced(w, w', d, cr)
    ensures Wrong(w', d, cr) <= Wrong(w, d, cr)
  {
    assert forall dn :: dn in Wrong(w', d, cr) ==> dn in Wrong(w, d, cr);
  }

  /** A pass that completes brings every managed account to its secret's value exactly when none of these
      values is empty; an empty one makes the directory generate a password nobody knows. */
  lemma CompletedPassSynchronises(w: World, d: Key, cr: Object, now: nat, inputs: seq<Input>, annotations: Labels)
    requires d.kind == DirectoryService && Typed(DirectoryService, cr)
    requires Pass(w, d, NextAccount(cr, cr.spec.passwords.Keys, now), inputs).pc == At(UpdateCr(annotations), cr)
    ensures var w' := Pass(w, d, NextAccount(cr, cr.spec.passwords.Keys, now), inputs).world;
            Wrong(w', d, cr) == {} <==> AllNonEmpty(w, d, cr)
  {
    var pc := NextAccount(cr, cr.spec.passwords.Keys, now);
    AfterAccount(cr, cr.spec.passwords.Keys, now);
    PassKeeps(w, w, d, cr, pc, inputs);
    var stop := Pass(w, d, pc, inputs);
    hide NextAccount, Pass;
    assert Settled(cr, stop.pc) == cr.spec.passwords.Keys;
    forall dn | dn in cr.spec.passwords && dn !in {"uid=admin", "uid=monitor"}
      ensures dn in Wrong(stop.world, d, cr) <==> Wanted(w.store, d, cr, dn) == Some("")
    {
      assert InSync(stop.world, d, cr, dn);
    }
  }

  // ----------------------------------------------------------------------------- getting to the end

  /** Every call of the pass succeeds, and the iteration goes over the keys that are left. */
  ghost predicate Served(w: World, d: Key, pc: Pc, inputs: seq<Input>)
    requires Ready(d.kind, pc)
    decreases |inputs|
  {
    inputs != [] && InLoop(pc) ==>
      && inputs[0].fate == Success && inputs[0].generated != ""
      && (pc.stage.PassChoose? ==> inputs[0].dn in pc.stage.todo)
      && var a := Perform(w, CallOf(d, pc), inputs[0]);
         Served(a.world, d, Resume(d, pc, a.reply), inputs[1..])
  }

  /** All managed accounts exist, and so do their secrets. */
  ghost predicate Provided(w: World, d: Key, cr: Object)
    requires Typed(DirectoryService, cr)
  {
    forall dn :: Managed(cr, dn) ==> Wanted(w.store, d, cr, dn).Some? && Account(d.namespace, d.name, dn) in w.passwords
  }

  /** What a pass writes into the annotations at its end. */
  function Recording(annotations: Labels, now: nat): Labels {
    annotations["password-updated-status" := "updated"]["directory.forgerock.io/last-password-check" := FormatInt(now)]
  }

  /** How many calls are left at most. */
  function CallsLeft(pc: Pc): nat {
    if !InLoop(pc) then 0
    else match pc.stage
         case PassChoose(todo, _) => 4 * |todo|
         case PassLookup(_, todo, _) => 4 * |todo| + 3
         case PassBind(_, _, todo, _) => 4 * |todo| + 2
         case PassSet(_, _, todo, _) => 4 * |todo| + 1
         case _ => 0
  }

  /** The pass is still going on, or it has come to its end, which is a matter of the annotations. */
  ghost predicate OnCourse(cr: Object, now: nat, pc: Pc)
    requires Typed(DirectoryService, cr)
  {
    if cr.meta.annotations == map[] then InLoopOf(cr, now, pc) || pc == Finished(Panicked(NilMap))
    else
      || InLoopOf(cr, now, pc)
      || pc == At(UpdateCr(Recording(cr.meta.annotations, now)), cr)
  }

  predicate InLoopOf(cr: Object, now: nat, pc: Pc)
    requires Typed(DirectoryService, cr)
  {
    && InLoop(pc) && pc.cr == cr
    && match pc.stage {
         case PassChoose(todo, t) => todo != {} && t == now
         case PassLookup(dn, _, t) => Managed(cr, dn) && t == now
         case PassBind(dn, _, _, t) => Managed(cr, dn) && t == now
         case PassSet(dn, _, _, t) => Managed(cr, dn) && t == now
         case _ => false
       }
  }

  lemma NextOnCourse(cr: Object, todo: set<string>, now: nat)
    requires Typed(DirectoryService, cr) && todo <= cr.spec.passwords.Keys
    ensures OnCourse(cr, now, NextAccount(cr, todo, now)) && CallsLeft(NextAccount(cr, todo, now)) <= 4 * |todo|
  {
    hide FormatInt;
  }

  lemma ChooseServed(w: World, d: Key, cr: Object, pc: Pc, inp: Input)
    requires d.kind == DirectoryService && Typed(DirectoryService, cr) && Ready(d.kind, pc)
    requires pc.At? && pc.stage.PassChoose? && pc.cr == cr && inp.dn in pc.stage.todo
    ensures var a, todo := Perform(w, CallOf(d, pc), inp), pc.stage.todo - {inp.dn};
            && a.world == w
            && Resume(d, pc, a.reply)
               == if inp.dn in {"uid=admin", "uid=monitor"} then NextAccount(cr, todo, pc.stage.now)
                  else At(PassLookup(inp.dn, todo, pc.stage.now), cr)
  {
    hide NextAccount;
  }

  lemma LookupServed(w: World, d: Key, cr: Object, pc: Pc, inp: Input)
    requires d.kind == DirectoryService && Typed(DirectoryService, cr) && Ready(d.kind, pc)
    requires pc.At? && pc.stage.PassLookup? && pc.cr == cr && inp.fate == Success
    requires Wanted(w.store, d, cr, pc.stage.dn).Some?
    ensures var a := Perform(w, CallOf(d, pc), inp);
            && a.world == w
            && Resume(d, pc, a.reply)
               == At(PassBind(pc.stage.dn, Wanted(w.store, d, cr, pc.stage.dn).value, pc.stage.todo, pc.stage.now), cr)
  {
  }

  lemma BindServed(w: World, d: Key, cr: Object, pc: Pc, inp: Input)
    requires d.kind == DirectoryService && Typed(DirectoryService, cr) && Ready(d.kind, pc)
    requires pc.At? && pc.stage.PassBind? && pc.cr == cr && inp.fate == Success
    ensures var a, next := Perform(w, CallOf(d, pc), inp), Resume(d, pc, Perform(w, CallOf(d, pc), inp).reply);
            && a.world == w
            && (|| next == NextAccount(cr, pc.stage.todo, pc.stage.now)
                || next == At(PassSet(pc.stage.dn, pc.stage.password, pc.stage.todo, pc.stage.now), cr))
  {
    hide NextAccount;
  }

  lemma SetServed(w: World, d: Key, cr: Object, pc: Pc, inp: Input)
    requires d.kind == DirectoryService && Typed(DirectoryService, cr) && Ready(d.kind, pc)
    requires pc.At? && pc.stage.PassSet? && pc.cr == cr && inp.fate == Success && inp.generated != ""
    requires Account(d.namespace, d.name, pc.stage.dn) in w.passwords
    ensures var a := Perform(w, CallOf(d, pc), inp);
            && a.world.store == w.store && a.world.passwords.Keys == w.passwords.Keys
            && Resume(d, pc, a.reply) == NextAccount(cr, pc.stage.todo, pc.stage.now)
  {
    hide NextAccount;
    assert CallOf(d, pc) == SetPassword(Account(d.namespace, d.name, pc.stage.dn), pc.stage.password);
  }

  lemma StillProvided(w: World, w': World, d: Key, cr: Object)
    requires Typed(DirectoryService, cr) && Provided(w, d, cr)
    requires w'.store == w.store && w'.passwords.Keys == w.passwords.Keys
    ensures Provided(w', d, cr)
  {
    hide Wanted;
  }

  lemma StaysProvided(w: World, d: Key, cr: Object, now: nat, pc: Pc, inp: Input)
    requires d.kind == DirectoryService && Typed(DirectoryService, cr) && Ready(d.kind, pc) && Provided(w, d, cr)
    requires InLoopOf(cr, now, pc)
    ensures Provided(Perform(w, CallOf(d, pc), inp).world, d, cr)
  {
    var w' := Perform(w, CallOf(d, pc), inp).world;
    assert w'.store == w.store && w'.passwords.Keys == w.passwords.Keys;
    hide Perform, CallOf, InLoopOf;
    StillProvided(w, w', d, cr);
  }

  /** A call that gets what it asks for brings the pass nearer to its end. */
  lemma ServedStep(w: World, d: Key, cr: Object, now: nat, pc: Pc, inp: Input)
    requires d.kind == DirectoryService && Typed(DirectoryService, cr) && Ready(d.kind, pc) && Provided(w, d, cr)
    requires InLoopOf(cr, now, pc) && inp.fate == Success && inp.generated != ""
    requires pc.stage.PassChoose? ==> inp.dn in pc.stage.todo
    ensures var next := Resume(d, pc, Perform(w, CallOf(d, pc), inp).reply);
            OnCourse(cr, now, next) && CallsLeft(next) < CallsLeft(pc)
  {
    hide NextAccount, OnCourse, Wanted, Perform, CallOf, Resume;
    if pc.stage.PassChoose? {
      ChosenOnCourse(w, d, cr, now, pc, inp);
    } else if pc.stage.PassLookup? {
      LookupServed(w, d, cr, pc, inp);
      BindOnCourse(cr, now, Resume(d, pc, Perform(w, CallOf(d, pc), inp).reply));
    } else if pc.stage.PassBind? {
      BindServed(w, d, cr, pc, inp);
      NextOnCourse(cr, pc.stage.todo, now);
      BindOnCourse(cr, now, At(PassSet(pc.stage.dn, pc.stage.password, pc.stage.todo, pc.stage.now), cr));
    } else {
      SetServed(w, d, cr, pc, inp);
      NextOnCourse(cr, pc.stage.todo, now);
    }
  }

  lemma BindOnCourse(cr: Object, now: nat, pc: Pc)
    requires Typed(DirectoryService, cr) && InLoopOf(cr, now, pc)
    ensures OnCourse(cr, now, pc)
  {
  }

  lemma ChosenOnCourse(w: World, d: Key, cr: Object, now: nat, pc: Pc, inp: Input)
    requires d.kind == DirectoryService && Typed(DirectoryService, cr) && Ready(d.kind, pc)
    requires InLoopOf(cr, now, pc) && pc.stage.PassChoose? && inp.dn in pc.stage.todo
    ensures var next := Resume(d, pc, Perform(w, CallOf(d, pc), inp).reply);
            OnCourse(cr, now, next) && CallsLeft(next) < CallsLeft(pc)
  {
    hide NextAccount, OnCourse, Perform, CallOf, Resume;
    var todo := pc.stage.todo - {inp.dn};
    assert |todo| == |pc.stage.todo| - 1;
    ChooseServed(w, d, cr, pc, inp);
    if inp.dn in {"uid=admin", "uid=monitor"} {
      NextOnCourse(cr, todo, now);
    } else {
      BindOnCourse(cr, now, At(PassLookup(inp.dn, todo, now), cr));
    }
  }

  /** A pass whose calls succeed comes to its end, after at most four calls for each account. */
  lemma {:induction false} PassCompletes(w: World, d: Key, cr: Object, now: nat, pc: Pc, inputs: seq<Input>)
    requires d.kind == DirectoryService && Typed(DirectoryService, cr) && Ready(d.kind, pc) && Provided(w, d, cr)
    requires OnCourse(cr, now, pc) && Served(w, d, pc, inputs) && |inputs| >= CallsLeft(pc)
    ensures !InLoop(Pass(w, d, pc, inputs).pc) && OnCourse(cr, now, Pass(w, d, pc, inputs).pc)
    decreases |inputs|
  {
    hide Perform, CallOf, Resume, Provided, FormatInt;
    if !InLoop(pc) {
    } else {
      assert CallsLeft(pc) > 0 by { SomeLeft(cr, now, pc); }
      ServedStep(w, d, cr, now, pc, inputs[0]);
      StaysProvided(w, d, cr, now, pc, inputs[0]);
      var a := Perform(w, CallOf(d, pc), inputs[0]);
      PassCompletes(a.world, d, cr, now, Resume(d, pc, a.reply), inputs[1..]);
    }
  }

  lemma SomeLeft(cr: Object, now: nat, pc: Pc)
    requires Typed(DirectoryService, cr) && InLoopOf(cr, now, pc)
    ensures CallsLeft(pc) > 0
  {
  }
}
