/** Reconciles of custom resources with separate names do not notice each other: any interleaving of their
    calls gives what running one after the other gives. */
module Serializability {
  import opened Cluster
  import opened Listing
  import opened Controllers
  import opened Runs
  import opened Separation

  // ------------------------------------------------------------------- a call as reading and a change

  datatype Change =
    | Nothing
    | Stores(key: Key, obj: Object, tag: nat)
    | Drops(key: Key)
    | Changes(account: Account, password: string)

  function Apply(w: World, c: Change): World {
    match c
    case Nothing => w
    case Stores(key, o, tag) => Written(w, key, o, tag)
    case Drops(key) => Removed(w, key)
    case Changes(account, password) => w.(passwords := w.passwords[account := password])
  }

  function ChangeByPut(w: World, key: Key, version: nat, target: Object, inp: Input): Change
    requires key in w.store
  {
    if inp.fate.Refused? || w.store[key].meta.version != version || inp.tag in w.tags || target == w.store[key]
        then Nothing
    else Stores(key, Versioned(target, inp.tag), inp.tag)
  }

  function ChangeOf(w: World, call: Call, inp: Input): Change {
    match call
    case Create(key, o) =>
      if inp.fate.Refused? || key in w.store || inp.tag in w.tags then Nothing
      else Stores(key, Stamped(o, inp.tag, w.clock), inp.tag)
    case Replace(key, o) =>
      if key !in w.store then Nothing else ChangeByPut(w, key, o.meta.version, Merged(w.store[key], o), inp)
    case ReplaceStatus(key, o) =>
      if key !in w.store then Nothing else ChangeByPut(w, key, o.meta.version, w.store[key].(status := o.status), inp)
    case Delete(key) => if inp.fate.Refused? || key !in w.store then Nothing else Drops(key)
    case SetPassword(account, password) =>
      if inp.fate.Refused? || account !in w.passwords || inp.generated == "" then Nothing
      else Changes(account, if password == "" then inp.generated else password)
    case _ => Nothing
  }

  lemma PerformIsChange(w: World, call: Call, inp: Input)
    ensures Perform(w, call, inp).world == Apply(w, ChangeOf(w, call, inp))
  {
  }

  predicate SameAt(w: World, w': World, key: Key) {
    (key in w.store <==> key in w'.store) && (key in w.store ==> w'.store[key] == w.store[key])
  }

  /** The two worlds agree on everything that the call looks at. */
  ghost predicate Agree(w: World, w': World, call: Call, tag: nat) {
    && w'.clock == w.clock
    && match call {
         case Get(key) => SameAt(w, w', key)
         case List(namespace, selector) =>
           forall items :: IsListing(w.store, namespace, selector, items) <==>
               IsListing(w'.store, namespace, selector, items)
         case Create(key, _) => SameAt(w, w', key) && (tag in w.tags <==> tag in w'.tags)
         case Replace(key, _) => SameAt(w, w', key) && (tag in w.tags <==> tag in w'.tags)
         case ReplaceStatus(key, _) => SameAt(w, w', key) && (tag in w.tags <==> tag in w'.tags)
         case Delete(key) => SameAt(w, w', key)
         case Bind(account, _) =>
           (account in w.passwords <==> account in w'.passwords)
           && (account in w.passwords ==> w'.passwords[account] == w.passwords[account])
         case SetPassword(account, _) => account in w.passwords <==> account in w'.passwords
         case _ => true
       }
  }

  /** Then it gets the same answer and makes the same change. */
  lemma AgreeingCalls(w: World, w': World, call: Call, inp: Input)
    requires Agree(w, w', call, inp.tag)
    ensures Perform(w', call, inp).reply == Perform(w, call, inp).reply
    ensures ChangeOf(w', call, inp) == ChangeOf(w, call, inp)
  {
  }

  predicate Apart(c: Change, d: Change) {
    && (c.Stores? || c.Drops?) && (d.Stores? || d.Drops?) ==> c.key != d.key
  }

  lemma StoreChangesCommute(w: World, c: Change, d: Change)
    requires (c.Stores? || c.Drops?) && (d.Stores? || d.Drops?) && c.key != d.key
    ensures Apply(Apply(w, c), d) == Apply(Apply(w, d), c)
  {
    var x, y := Apply(Apply(w, c), d), Apply(Apply(w, d), c);
    assert x.store == y.store;
    assert x.tags == y.tags && x.volumes == y.volumes && x.images == y.images;
  }

  lemma ChangesCommute(w: World, c: Change, d: Change)
    requires Apart(c, d) && (c.Changes? && d.Changes? ==> c.account != d.account)
    ensures Apply(Apply(w, c), d) == Apply(Apply(w, d), c)
  {
    if c.Nothing? || d.Nothing? {
    } else if c.Changes? && d.Changes? {
      assert w.passwords[c.account := c.password][d.account := d.password]
          == w.passwords[d.account := d.password][c.account := c.password];
    } else if c.Changes? || d.Changes? {
    } else {
      StoreChangesCommute(w, c, d);
    }
  }

  // ------------------------------------------------------------------------ what keeps them separate

  /** No snapshot that carries the labels of service `x` has a name that `y` may use. */
  ghost predicate LabelsApart(store: Store, x: Key, y: Key) {
    x.kind == DirectoryService ==>
      forall name :: Selected(store, x.namespace, Selector(x), name) ==> !Owns(y, Key(Snapshot, x.namespace, name))
  }

  /** The same for the snapshots on a list that is being pruned, which carry these labels while they exist. */
  ghost predicate ListApart(w: World, x: Key, pc: Pc, y: Key) {
    pc.At? && pc.stage.Prune? ==>
      forall i :: 0 <= i < |pc.stage.items| ==> ItemApart(w.store, x, y, pc.stage.items[i].name)
  }

  ghost predicate ItemApart(store: Store, x: Key, y: Key, name: string) {
    var key := Key(Snapshot, x.namespace, name);
    !Owns(y, key) && (key in store ==> Matches(Selector(x), store[key].meta.labels))
  }

  ghost predicate HalfSeparate(s: System, x: Key, y: Key) {
    LabelsApart(s.world.store, x, y) && ListApart(s.world, x, PcOf(s, x), y)
  }

  ghost predicate Separate(s: System, a: Key, b: Key) {
    && Sound(s) && IsCustom(a.kind) && IsCustom(b.kind) && a != b && NamesApart(a, b) && NamesApart(b, a)
    && HalfSeparate(s, a, b) && HalfSeparate(s, b, a)
  }

  /** A step creates only what its custom resource owns, and a snapshot only with labels of its own. */
  lemma StepKeepsLabels(w: World, x: Key, y: Key, q: Key, pc: Pc, inp: Input, name: string)
    requires ThreadOk(w, q, pc) && IsCustom(x.kind) && IsCustom(y.kind) && x != y && NamesApart(x, y)
    requires x.kind == DirectoryService
    requires LabelsApart(w.store, x, y)
    ensures Selected(Perform(w, CallOf(q, pc), inp).world.store, x.namespace, Selector(x), name) ==>
              !Owns(y, Key(Snapshot, x.namespace, name))
  {
    hide Perform, CallOf, NamesApart, Selector, Matches, Owns;
    var key := Key(Snapshot, x.namespace, name);
    if key in w.store {
      StepPreserves(w, q, pc, inp, key);
      assert Selected(w.store, x.namespace, Selector(x), name) ==> !Owns(y, key);
    } else {
      CreatedSnapshot(w, q, pc, inp, key);
      if q == x {
        ApartNeverMeet(x, y, key);
      } else if pc.Creating? && Target(q, pc.stage) == key {
        FreshLabelsMatch(q, pc.stage, pc.cr, ClaimIn(pc.obj), x);
        assert q.namespace == x.namespace;
      }
    }
  }

  lemma CreatedSnapshot(w: World, q: Key, pc: Pc, inp: Input, key: Key)
    requires ThreadOk(w, q, pc) && key !in w.store
    ensures var store := Perform(w, CallOf(q, pc), inp).world.store;
            key in store ==>
              && pc.Creating? && Target(q, pc.stage) == key && Owns(q, key)
                   && store[key].meta.labels == pc.obj.meta.labels
  {
    hide Perform, CallOf, Target, Fresh, Adjusted, Owns;
    StepEffect(w, q, pc, inp);
    if pc.Creating? {
      TargetIsOwned(q, pc.stage);
    }
  }

  /** The labels of a listed snapshot stay, and nobody makes a new one under its name. */
  lemma ItemStays(w: World, x: Key, y: Key, q: Key, pc: Pc, inp: Input, name: string)
    requires ThreadOk(w, q, pc) && ItemApart(w.store, x, y, name)
    requires if q == x then !pc.Creating? else ItemApart(w.store, x, q, name)
    ensures ItemApart(Perform(w, CallOf(q, pc), inp).world.store, x, y, name)
  {
    hide Perform, CallOf, Selector, Matches, Owns;
    var key := Key(Snapshot, x.namespace, name);
    if key in w.store {
      StepPreserves(w, q, pc, inp, key);
    } else {
      CreatedSnapshot(w, q, pc, inp, key);
    }
  }

  lemma NewListApart(w: World, x: Key, y: Key, items: seq<Item>)
    requires x.kind == DirectoryService && LabelsApart(w.store, x, y)
    requires IsListing(w.store, x.namespace, Selector(x), items)
    ensures forall i :: 0 <= i < |SortByCreation(items)| ==> ItemApart(w.store, x, y, SortByCreation(items)[i].name)
  {
    hide Selector, Matches, Owns, SortByCreation;
    SortedListing(w.store, x.namespace, Selector(x), items);
    forall i | 0 <= i < |SortByCreation(items)|
      ensures ItemApart(w.store, x, y, SortByCreation(items)[i].name)
    {
      assert Selected(w.store, x.namespace, Selector(x), SortByCreation(items)[i].name);
    }
  }

  lemma OwnListApart(w: World, x: Key, y: Key, pc: Pc, inp: Input)
    requires ThreadOk(w, x, pc) && IsCustom(x.kind) && LabelsApart(w.store, x, y) && ListApart(w, x, pc, y)
    ensures var a := Perform(w, CallOf(x, pc), inp);
            ListApart(a.world, x, Resume(x, pc, a.reply), y)
  {
    hide Perform, CallOf, Resume, ItemApart;
    var a := Perform(w, CallOf(x, pc), inp);
    var next := Resume(x, pc, a.reply);
    PruneListAfter(w, x, pc, inp);
    if next.At? && next.stage.Prune? {
      if pc.At? && pc.stage.SnapList? {
        NewListApart(w, x, y, inp.listing);
      }
      forall i | 0 <= i < |next.stage.items|
        ensures ItemApart(a.world.store, x, y, next.stage.items[i].name)
      {
        ItemStays(w, x, y, x, pc, inp, next.stage.items[i].name);
      }
    }
  }

  lemma OtherListApart(w: World, x: Key, pcx: Pc, y: Key, q: Key, pcq: Pc, inp: Input)
    requires ThreadOk(w, q, pcq) && ListApart(w, x, pcx, y) && ListApart(w, x, pcx, q) && q != x
    ensures ListApart(Perform(w, CallOf(q, pcq), inp).world, x, pcx, y)
  {
    hide Perform, CallOf, ItemApart;
    if pcx.At? && pcx.stage.Prune? {
      forall i | 0 <= i < |pcx.stage.items|
        ensures ItemApart(Perform(w, CallOf(q, pcq), inp).world.store, x, y, pcx.stage.items[i].name)
      {
        ItemStays(w, x, y, q, pcq, inp, pcx.stage.items[i].name);
      }
    }
  }

  lemma HalfKept(s: System, x: Key, y: Key, q: Key, inp: Input)
    requires Sound(s) && IsCustom(x.kind) && IsCustom(y.kind) && x != y && NamesApart(x, y) && HalfSeparate(s, x, y)
    requires q == x || HalfSeparate(s, x, q)
    ensures HalfSeparate(Move(s, q, inp), x, y)
  {
    hide Perform, CallOf, Resume, NamesApart, ListApart;
    var pc := PcOf(s, q);
    assert ThreadOk(s.world, q, pc);
    var s' := Move(s, q, inp);
    if x.kind == DirectoryService {
      forall name | Selected(s'.world.store, x.namespace, Selector(x), name)
        ensures !Owns(y, Key(Snapshot, x.namespace, name))
      {
        StepKeepsLabels(s.world, x, y, q, pc, inp, name);
      }
    }
    if q == x {
      OwnListApart(s.world, x, y, pc, inp);
      StartHasNoList(s'.world, x, y);
    } else {
      OtherListApart(s.world, x, PcOf(s, x), y, q, pc, inp);
    }
  }

  lemma StartHasNoList(w: World, x: Key, y: Key)
    ensures ListApart(w, x, Start, y)
  {
  }

  /** A step of one of them, or of a third one that is separate from both, keeps them separate. */
  lemma SeparateKept(s: System, a: Key, b: Key, q: Key, inp: Input)
    requires Separate(s, a, b) && (q == a || Separate(s, a, q)) && (q == b || Separate(s, b, q))
    ensures Separate(Move(s, q, inp), a, b)
  {
    hide Move, HalfSeparate, NamesApart, Sound;
    MoveSound(s, q, inp);
    HalfKept(s, a, b, q, inp);
    HalfKept(s, b, a, q, inp);
  }

  lemma MoveSound(s: System, q: Key, inp: Input)
    requires Sound(s)
    ensures Sound(Move(s, q, inp))
  {
    hide Sound, Move;
    SoundKept(Tools(x => x, x => x), s, Step(q, inp));
  }

  // ------------------------------------------------------------------------------------ the diamond

  /** The key that a call of `x` is about belongs to `x`, is a secret, or is on its prune list. */
  lemma CallKeys(x: Key, pc: Pc)
    requires Ready(x.kind, pc) && !pc.Finished? && IsCustom(x.kind)
    ensures var c := CallOf(x, pc);
            && (c.Get? ==> Owns(x, c.key) || c.key.kind == Secret)
            && (c.Create? || c.Replace? || c.ReplaceStatus? ==> Owns(x, c.key))
            && (c.Delete? ==>
                  && pc.At? && pc.stage.Prune?
                  && c.key == Key(Snapshot, x.namespace, pc.stage.items[pc.stage.index].name))
            && (c.List? ==> x.kind == DirectoryService && c.namespace == x.namespace && c.selector == Selector(x))
            && (c.Bind? || c.SetPassword? ==>
                  c.account.namespace == x.namespace && c.account.service == x.name && x.kind == DirectoryService)
  {
    hide Fresh, Adjusted, Selector;
    if !pc.Start? {
      TargetIsOwned(x, pc.stage);
    }
  }

  /** A change made by `y` is at a key of `y` or drops a snapshot that carries the labels of `y`. */
  lemma ChangeKeys(w: World, x: Key, y: Key, pc: Pc, inp: Input)
    requires ThreadOk(w, y, pc) && IsCustom(y.kind) && ListApart(w, y, pc, x)
    ensures var c := ChangeOf(w, CallOf(y, pc), inp);
            && (c.Stores? ==> Owns(y, c.key) && c.tag == inp.tag)
            && (c.Drops? ==>
                  && c.key.kind == Snapshot && c.key.namespace == y.namespace && y.kind == DirectoryService
                  && c.key in w.store && Matches(Selector(y), w.store[c.key].meta.labels) && !Owns(x, c.key))
            && (c.Changes? ==>
                  c.account.namespace == y.namespace && c.account.service == y.name && y.kind == DirectoryService)
  {
    hide CallOf, Owns, Matches, Selector;
    CallKeys(y, pc);
    if pc.At? && pc.stage.Prune? {
      assert ItemApart(w.store, y, x, pc.stage.items[pc.stage.index].name);
    }
  }

  /** A step of `y` does not change which snapshots `x` lists. */
  lemma SelectionStays(s: System, x: Key, y: Key, inp: Input, name: string)
    requires Separate(s, x, y) && x.kind == DirectoryService
    ensures var store, store' := s.world.store, Move(s, y, inp).world.store;
            && (Selected(store, x.namespace, Selector(x), name) <==> Selected(store', x.namespace, Selector(x), name))
            && (Selected(store, x.namespace, Selector(x), name) ==>
                  store'[Key(Snapshot, x.namespace, name)].meta.created
                      == store[Key(Snapshot, x.namespace, name)].meta.created)
  {
    hide Perform, CallOf, Resume, NamesApart, Owns;
    var key, pc := Key(Snapshot, x.namespace, name), PcOf(s, y);
    assert ThreadOk(s.world, y, pc);
    if key in s.world.store {
      StepPreserves(s.world, y, pc, inp, key);
      if key !in Move(s, y, inp).world.store {
        DroppedIsForeign(s, x, y, inp, key);
      }
    } else {
      CreatedSnapshot(s.world, y, pc, inp, key);
      StepKeepsLabels(s.world, x, y, y, pc, inp, name);
    }
  }

  lemma DroppedIsForeign(s: System, x: Key, y: Key, inp: Input, key: Key)
    requires Separate(s, x, y) && x.kind == DirectoryService && key.namespace == x.namespace && key in s.world.store
    requires key !in Move(s, y, inp).world.store
    ensures !Matches(Selector(x), s.world.store[key].meta.labels)
  {
    hide Perform, CallOf, Resume, NamesApart, Owns, Matches, Selector;
    var pc := PcOf(s, y);
    assert ThreadOk(s.world, y, pc);
    PerformIsChange(s.world, CallOf(y, pc), inp);
    ChangeKeys(s.world, x, y, pc, inp);
    if Matches(Selector(x), s.world.store[key].meta.labels) {
      OneService(s.world.store[key].meta.labels, x, y);
    }
  }

  lemma OwnedKinds(y: Key, key: Key)
    requires IsCustom(y.kind) && Owns(y, key)
    ensures key.kind != Secret
  {
  }

  lemma KeyStays(s: System, x: Key, y: Key, inp: Input, key: Key)
    requires Separate(s, x, y) && (Owns(x, key) || key.kind == Secret)
    ensures SameAt(s.world, Move(s, y, inp).world, key)
  {
    hide Perform, CallOf, Resume, NamesApart, Owns, Matches, Selector;
    var pc := PcOf(s, y);
    assert ThreadOk(s.world, y, pc);
    PerformIsChange(s.world, CallOf(y, pc), inp);
    ChangeKeys(s.world, x, y, pc, inp);
    if Owns(y, key) {
      OwnedKinds(y, key);
      ApartNeverMeet(x, y, key);
    }
  }

  lemma ListedStays(s: System, x: Key, y: Key, inp: Input, i: nat)
    requires Separate(s, x, y) && PcOf(s, x).At? && PcOf(s, x).stage.Prune? && i < |PcOf(s, x).stage.items|
    requires x.kind == DirectoryService
    ensures SameAt(s.world, Move(s, y, inp).world, Key(Snapshot, x.namespace, PcOf(s, x).stage.items[i].name))
  {
    hide Perform, CallOf, Resume, NamesApart, Owns, Matches, Selector;
    var pc, key := PcOf(s, y), Key(Snapshot, x.namespace, PcOf(s, x).stage.items[i].name);
    assert ThreadOk(s.world, y, pc);
    assert ItemApart(s.world.store, x, y, PcOf(s, x).stage.items[i].name);
    PerformIsChange(s.world, CallOf(y, pc), inp);
    ChangeKeys(s.world, x, y, pc, inp);
    if key in s.world.store && key !in Move(s, y, inp).world.store {
      DroppedIsForeign(s, x, y, inp, key);
    }
  }

  lemma RestStays(s: System, x: Key, y: Key, inp: Input)
    requires Separate(s, x, y)
    ensures var w, w' := s.world, Move(s, y, inp).world;
            && w'.clock == w.clock && w.tags <= w'.tags <= w.tags + {inp.tag}
            && forall account: Account ::
                 account.namespace == x.namespace && account.service == x.name && x.kind == DirectoryService ==>
                 && (account in w.passwords <==> account in w'.passwords)
                 && (account in w.passwords ==> w'.passwords[account] == w.passwords[account])
  {
    hide Perform, CallOf, Resume, NamesApart, Owns, Matches, Selector;
    var pc := PcOf(s, y);
    assert ThreadOk(s.world, y, pc);
    PerformIsChange(s.world, CallOf(y, pc), inp);
    ChangeKeys(s.world, x, y, pc, inp);
  }

  /** A step of `y` changes nothing that the next call of `x` looks at. */
  lemma StaysAgreed(s: System, x: Key, y: Key, inp: Input, tag: nat)
    requires Separate(s, x, y) && tag != inp.tag
    ensures Ready(x.kind, PcOf(s, x)) && !PcOf(s, x).Finished?
    ensures Agree(s.world, Move(s, y, inp).world, CallOf(x, PcOf(s, x)), tag)
  {
    hide Move, NamesApart, Owns, Matches, Selector, CallOf, LabelsApart, SameAt, IsListing;
    var pc := PcOf(s, x);
    assert ThreadOk(s.world, x, pc);
    var call := CallOf(x, pc);
    CallKeys(x, pc);
    RestStays(s, x, y, inp);
    if call.Get? || call.Create? || call.Replace? || call.ReplaceStatus? {
      KeyStays(s, x, y, inp, call.key);
    } else if call.Delete? {
      ListedStays(s, x, y, inp, pc.stage.index);
    } else if call.List? {
      forall name
        ensures Selected(s.world.store, x.namespace, Selector(x), name) <==>
                  Selected(Move(s, y, inp).world.store, x.namespace, Selector(x), name)
        ensures Selected(s.world.store, x.namespace, Selector(x), name) ==>
                  Move(s, y, inp).world.store[Key(Snapshot, x.namespace, name)].meta.created
                      == s.world.store[Key(Snapshot, x.namespace, name)].meta.created
      {
        SelectionStays(s, x, y, inp, name);
      }
      forall items
        ensures IsListing(s.world.store, x.namespace, Selector(x), items) <==>
                  IsListing(Move(s, y, inp).world.store, x.namespace, Selector(x), items)
      {
        ListingDepends(s.world.store, Move(s, y, inp).world.store, x.namespace, Selector(x), items);
      }
    }
  }

  lemma Symmetric(s: System, a: Key, b: Key)
    requires Separate(s, a, b)
    ensures Separate(s, b, a)
  {
  }

  lemma ChangesApart(s: System, a: Key, b: Key, i: Input, j: Input)
    requires Separate(s, a, b)
    ensures Ready(a.kind, PcOf(s, a)) && !PcOf(s, a).Finished? && Ready(b.kind, PcOf(s, b)) && !PcOf(s, b).Finished?
    ensures var c, d := ChangeOf(s.world, CallOf(a, PcOf(s, a)), i), ChangeOf(s.world, CallOf(b, PcOf(s, b)), j);
            Apart(c, d) && (c.Changes? && d.Changes? ==> c.account != d.account)
  {
    hide Perform, CallOf, NamesApart, Owns, Matches, Selector, ChangeOf;
    assert ThreadOk(s.world, a, PcOf(s, a)) && ThreadOk(s.world, b, PcOf(s, b));
    ChangeKeys(s.world, b, a, PcOf(s, a), i);
    ChangeKeys(s.world, a, b, PcOf(s, b), j);
    var c, d := ChangeOf(s.world, CallOf(a, PcOf(s, a)), i), ChangeOf(s.world, CallOf(b, PcOf(s, b)), j);
    if (c.Stores? || c.Drops?) && (d.Stores? || d.Drops?) && c.key == d.key {
      ApartNeverMeet(a, b, c.key);
      if c.Drops? && d.Drops? {
        OneService(s.world.store[c.key].meta.labels, a, b);
      }
    }
  }

  function Seated(threads: map<Key, Pc>, q: Key, next: Pc): map<Key, Pc> {
    if next.Finished? then threads - {q} else threads[q := next]
  }

  lemma SeatedCommute(threads: map<Key, Pc>, a: Key, x: Pc, b: Key, y: Pc)
    requires a != b
    ensures Seated(Seated(threads, a, x), b, y) == Seated(Seated(threads, b, y), a, x)
  {
  }

  lemma MoveIs(s: System, q: Key, pc: Pc, inp: Input)
    requires PcOf(s, q) == pc && Ready(q.kind, pc) && !pc.Finished?
    ensures Move(s, q, inp)
            == System(Apply(s.world, ChangeOf(s.world, CallOf(q, pc), inp)),
                      Seated(s.threads, q, Resume(q, pc, Perform(s.world, CallOf(q, pc), inp).reply)))
  {
    hide Perform, CallOf, Resume, ChangeOf, Apply;
    PerformIsChange(s.world, CallOf(q, pc), inp);
  }

  lemma SeatStays(s: System, q: Key, inp: Input, other: Key)
    requires other != q
    ensures PcOf(Move(s, q, inp), other) == PcOf(s, other)
  {
    hide Perform, CallOf, Resume;
  }

  /** Two adjacent steps of separate custom resources can be swapped. */
  lemma Diamond(s: System, a: Key, b: Key, i: Input, j: Input)
    requires Separate(s, a, b) && i.tag != j.tag
    ensures Move(Move(s, a, i), b, j) == Move(Move(s, b, j), a, i)
  {
    hide Perform, CallOf, Resume, NamesApart, HalfSeparate, Agree, ChangeOf, Move, Apply, Seated, Sound, PcOf;
    Symmetric(s, a, b);
    StaysAgreed(s, a, b, j, i.tag);
    StaysAgreed(s, b, a, i, j.tag);
    var pa, pb := PcOf(s, a), PcOf(s, b);
    var ca, cb := CallOf(a, pa), CallOf(b, pb);
    AgreeingCalls(s.world, Move(s, b, j).world, ca, i);
    AgreeingCalls(s.world, Move(s, a, i).world, cb, j);
    SeatStays(s, a, i, b);
    SeatStays(s, b, j, a);
    MoveIs(s, a, pa, i);
    MoveIs(s, b, pb, j);
    MoveIs(Move(s, a, i), b, pb, j);
    MoveIs(Move(s, b, j), a, pa, i);
    ChangesApart(s, a, b, i, j);
    ChangesCommute(s.world, ChangeOf(s.world, ca, i), ChangeOf(s.world, cb, j));
    SeatedCommute(s.threads, a, Resume(a, pa, Perform(s.world, ca, i).reply), b,
        Resume(b, pb, Perform(s.world, cb, j).reply));
  }

  // ------------------------------------------------------------------------------- serializability

  /** Any two of them are separate. */
  ghost predicate AllSeparate(s: System, order: seq<Key>) {
    Sound(s) && forall i, j :: 0 <= i < j < |order| ==> Separate(s, order[i], order[j])
  }

  lemma SeparatePair(s: System, order: seq<Key>, a: Key, b: Key)
    requires AllSeparate(s, order) && a in order && b in order && a != b
    ensures Separate(s, a, b)
  {
    hide Separate;
    var i :| 0 <= i < |order| && order[i] == a;
    var j :| 0 <= j < |order| && order[j] == b;
    if j < i {
      Symmetric(s, b, a);
    }
  }

  lemma AllSeparateKept(s: System, order: seq<Key>, q: Key, inp: Input)
    requires AllSeparate(s, order) && q in order
    ensures AllSeparate(Move(s, q, inp), order)
  {
    hide Separate, Move, Sound;
    MoveSound(s, q, inp);
    forall i, j | 0 <= i < j < |order|
      ensures Separate(Move(s, q, inp), order[i], order[j])
    {
      if order[i] != q { SeparatePair(s, order, order[i], q); }
      if order[j] != q { SeparatePair(s, order, order[j], q); }
      SeparateKept(s, order[i], order[j], q, inp);
    }
  }

  /** The run consists of steps of these custom resources; calls of different ones are handed out different uids
      and versions. */
  predicate Interleaves(run: seq<Label>, order: seq<Key>) {
    && (forall i :: 0 <= i < |run| ==> run[i].Step? && run[i].req in order)
    && (forall i, j :: 0 <= i < j < |run| && run[i].req != run[j].req ==> run[i].inp.tag != run[j].inp.tag)
  }

  /** The steps of one of them, in the order of the run. */
  function Only(run: seq<Label>, q: Key): seq<Label> {
    if run == [] then []
    else (if run[0].Step? && run[0].req == q then [run[0]] else []) + Only(run[1..], q)
  }

  /** All the steps of the first, then all the steps of the second, and so on. */
  function Serial(run: seq<Label>, order: seq<Key>): seq<Label> {
    if order == [] then [] else Only(run, order[0]) + Serial(run, order[1..])
  }

  predicate NoRepetition(order: seq<Key>) {
    forall i, j :: 0 <= i < j < |order| ==> order[i] != order[j]
  }

  lemma {:induction false} OnlyHas(run: seq<Label>, q: Key, l: Label)
    requires l in Only(run, q)
    ensures l in run && l.Step? && l.req == q
  {
    assert run != [];
    if !(run[0].Step? && run[0].req == q && l == run[0]) {
      OnlyHas(run[1..], q, l);
    }
  }

  lemma {:induction false} SerialHas(run: seq<Label>, order: seq<Key>, l: Label)
    requires l in Serial(run, order)
    ensures l in run && l.Step? && l.req in order
  {
    assert order != [];
    if l in Only(run, order[0]) {
      OnlyHas(run, order[0], l);
    } else {
      SerialHas(run, order[1..], l);
    }
  }

  /** A step that is none of theirs makes no difference. */
  lemma {:induction false} SerialSkips(run: seq<Label>, order: seq<Key>)
    requires run != [] && run[0].Step? && run[0].req !in order
    ensures Serial(run, order) == Serial(run[1..], order)
  {
    if order == [] {
    } else {
      SerialSkips(run, order[1..]);
    }
  }

  lemma {:induction false} SerialAppend(run: seq<Label>, a: seq<Key>, b: seq<Key>)
    ensures Serial(run, a + b) == Serial(run, a) + Serial(run, b)
  {
    hide Only;
    if a == [] {
      assert a + b == b;
    } else {
      assert (a + b)[0] == a[0] && (a + b)[1..] == a[1..] + b;
      SerialAppend(run, a[1..], b);
    }
  }

  lemma OnlyTakes(run: seq<Label>, q: Key)
    requires run != [] && run[0].Step? && run[0].req == q
    ensures Only(run, q) == [run[0]] + Only(run[1..], q)
  {
  }

  lemma {:induction false} SerialTakes(run: seq<Label>, order: seq<Key>)
    requires run != [] && run[0].Step? && order != [] && run[0].req == order[0] && run[0].req !in order[1..]
    ensures Serial(run, order) == [run[0]] + Serial(run[1..], order)
  {
    hide Only;
    var own, others := Only(run[1..], order[0]), Serial(run[1..], order[1..]);
    OnlyTakes(run, order[0]);
    SerialSkips(run, order[1..]);
    assert ([run[0]] + own) + others == [run[0]] + (own + others);
  }

  /** The first step of a run comes, in the serial order, after the steps of those before its own. */
  lemma {:induction false} SerialSplit(run: seq<Label>, order: seq<Key>, k: nat)
    requires run != [] && run[0].Step? && k < |order| && run[0].req == order[k] && NoRepetition(order)
    ensures Serial(run, order) == Serial(run[1..], order[..k]) + [run[0]] + Serial(run[1..], order[k..])
    ensures Serial(run[1..], order) == Serial(run[1..], order[..k]) + Serial(run[1..], order[k..])
  {
    hide Serial;
    assert order == order[..k] + order[k..];
    SerialAppend(run, order[..k], order[k..]);
    SerialAppend(run[1..], order[..k], order[k..]);
    SerialSkips(run, order[..k]);
    SerialTakes(run, order[k..]);
  }

  /** A step of `b` slides behind any number of steps of the others. */
  lemma {:induction false} Slide(tools: Tools, s: System, order: seq<Key>, b: Key, j: Input, steps: seq<Label>)
    requires AllSeparate(s, order) && b in order
    requires forall k :: 0 <= k < |steps| ==>
               steps[k].Step? && steps[k].req in order && steps[k].req != b && steps[k].inp.tag != j.tag
    ensures Exec(tools, Move(s, b, j), steps) == Move(Exec(tools, s, steps), b, j)
    decreases |steps|
  {
    hide Move, Separate, AllSeparate;
    if steps == [] {
    } else {
      var a, i := steps[0].req, steps[0].inp;
      assert steps[0] == Step(a, i) && i.tag != j.tag;
      SeparatePair(s, order, a, b);
      Diamond(s, a, b, i, j);
      AllSeparateKept(s, order, a, i);
      Slide(tools, Move(s, a, i), order, b, j, steps[1..]);
    }
  }

  /** The steps of those before its own, behind which the first step of a run has to slide. */
  lemma SlidesBehind(run: seq<Label>, order: seq<Key>, k: nat)
    requires run != [] && Interleaves(run, order) && k < |order| && run[0].req == order[k] && NoRepetition(order)
    ensures forall m :: 0 <= m < |Serial(run[1..], order[..k])| ==>
              var l := Serial(run[1..], order[..k])[m];
              l.Step? && l.req in order && l.req != run[0].req && l.inp.tag != run[0].inp.tag
  {
    var before := Serial(run[1..], order[..k]);
    forall m | 0 <= m < |before|
      ensures before[m].Step? && before[m].req in order && before[m].req != run[0].req
              && before[m].inp.tag != run[0].inp.tag
    {
      SerialHas(run[1..], order[..k], before[m]);
      var n :| 0 <= n < |run[1..]| && run[1..][n] == before[m];
      assert run[n + 1] == before[m];
    }
  }

  lemma ExecThree(tools: Tools, s: System, a: seq<Label>, l: Label, b: seq<Label>)
    ensures Exec(tools, s, a + [l] + b) == Exec(tools, Do(tools, Exec(tools, s, a), l), b)
  {
    hide Do;
    ExecAppend(tools, s, a + [l], b);
    ExecOne(tools, s, a, l);
  }

  /** Every interleaving of reconciles of any number of custom resources that are pairwise separate, whatever
      fails in them, ends exactly as all the steps of the first followed by all the steps of the second and so
      on, in whichever order they are taken. */
  lemma {:induction false} InterleavingsAreSerial(tools: Tools, s: System, order: seq<Key>, run: seq<Label>)
    requires AllSeparate(s, order) && NoRepetition(order) && Interleaves(run, order)
    ensures Exec(tools, s, run) == Exec(tools, s, Serial(run, order))
    decreases |run|
  {
    hide Move, AllSeparate, Serial;
    if run == [] {
      NothingToDo(order);
    } else {
      var l, rest := run[0], run[1..];
      assert l == Step(l.req, l.inp);
      var k :| 0 <= k < |order| && order[k] == l.req;
      AllSeparateKept(s, order, l.req, l.inp);
      assert Interleaves(rest, order) by { assert forall i :: 0 <= i < |rest| ==> rest[i] == run[i + 1]; }
      InterleavingsAreSerial(tools, Do(tools, s, l), order, rest);
      SerialSplit(run, order, k);
      SlidesBehind(run, order, k);
      var before, after := Serial(rest, order[..k]), Serial(rest, order[k..]);
      Slide(tools, s, order, l.req, l.inp, before);
      ExecAppend(tools, Do(tools, s, l), before, after);
      ExecThree(tools, s, before, l, after);
    }
  }

  lemma {:induction false} NothingToDo(order: seq<Key>)
    ensures Serial([], order) == []
  {
    if order == [] {
    } else {
      NothingToDo(order[1..]);
    }
  }
}
