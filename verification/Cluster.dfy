/** The cluster the operator works on: typed objects in an API server, the volumes behind
    claims and snapshots, the passwords of the directories, and the calls that act on them. */
module Cluster {
  import opened Text

  datatype Kind =
    | DirectoryService | DirectoryBackup | DirectoryRestore
    | Claim | Snapshot | Job | StatefulSet | Service | Secret

  datatype Key = Key(kind: Kind, namespace: string, name: string)

  type Labels = map<string, string>

  datatype OwnerRef = OwnerRef(kind: Kind, name: string, uid: nat, controller: bool)

  /** `version` is the resource version, renewed by every effective write. */
  datatype Meta = Meta(
    uid: nat, version: nat, created: nat,
    labels: Labels, annotations: Labels, owners: seq<OwnerRef>)

  datatype DataSource = DataSource(kind: string, name: string, group: string)

  /** A claim spec: its optional data source, and everything else as `shape`. */
  datatype ClaimSpec = ClaimSpec(shape: string, source: Option<DataSource>)

  /** The parts of a pod template that decide something; `rest` stands for the others. */
  datatype PodTemplate = PodTemplate(
    image: string, claim: ClaimSpec, snapshotClass: string, rest: string)

  /** `periodMinutes` and `retained` are 32-bit in the custom resource. */
  datatype Schedule = Schedule(enabled: bool, periodMinutes: int, retained: int, instance: int)

  datatype Credential = Credential(secretName: string, key: string)

  datatype Tool = BackupTool | RestoreTool

  datatype Spec =
    | ServiceSpec(pod: PodTemplate, replicas: int, passwords: map<string, Credential>, schedule: Schedule)
    | BackupSpec(pod: PodTemplate, claimToBackup: string)
    | RestoreSpec(pod: PodTemplate, sourceClaim: string)
    | ClaimObject(claim: ClaimSpec)
    | SnapshotObject(snapshotClass: string, source: string)
    | JobObject(tool: Tool, dataClaim: string, backupClaim: string, image: string, rest: string)
    | SetObject(replicas: int, dsImage: string, initImage: string, serviceName: string,
                templateName: string, template: ClaimSpec, rest: string)
    | HeadlessService(selector: string)
    | SecretObject(data: map<string, string>)

  datatype Status =
    | Plain
    | ServiceStatus(lastSnapshot: int)
    | RunTimes(start: Option<nat>, completion: Option<nat>)
    | JobStatus(completed: Option<nat>, succeeded: nat, failed: nat)

  datatype Object = Object(meta: Meta, spec: Spec, status: Status)

  predicate Typed(kind: Kind, o: Object) {
    match kind
    case DirectoryService => o.spec.ServiceSpec? && o.status.ServiceStatus?
    case DirectoryBackup => o.spec.BackupSpec? && o.status.RunTimes?
    case DirectoryRestore => o.spec.RestoreSpec? && o.status.RunTimes?
    case Claim => o.spec.ClaimObject? && o.status.Plain?
    case Snapshot => o.spec.SnapshotObject? && o.status.Plain?
    case Job => o.spec.JobObject? && o.status.JobStatus?
    case StatefulSet => o.spec.SetObject? && o.status.Plain?
    case Service => o.spec.HeadlessService? && o.status.Plain?
    case Secret => o.spec.SecretObject? && o.status.Plain?
  }

  type Store = map<Key, Object>

  type Blob = string

  /** An account of the directory that one service runs. */
  datatype Account = Account(namespace: string, service: string, dn: string)

  /** `tags` are the uids and resource versions handed out so far. */
  datatype World = World(
    store: Store, tags: set<nat>, clock: nat,
    volumes: map<Key, Blob>, images: map<Key, Blob>, passwords: map<Account, string>)

  // ---------------------------------------------------------------------- calls

  /** One entry of a snapshot listing. */
  datatype Item = Item(name: string, created: nat)

  datatype Call =
    | Get(key: Key)
    | List(namespace: string, selector: Labels)
    | Create(key: Key, obj: Object)
    | Replace(key: Key, obj: Object)
    | ReplaceStatus(key: Key, obj: Object)
    | Delete(key: Key)
    | Now
    | Choose(dns: set<string>)
    | Attempt
    | Bind(account: Account, password: string)
    | SetPassword(account: Account, password: string)

  datatype Reply =
    | Failed
    | Missing
    | Found(obj: Object)
    | Listed(items: seq<Item>)
    | Done
    | Time(now: nat)
    | Chosen(dn: string)
    | Unreachable

  /** A call succeeds, is refused without effect, or takes effect while its caller sees an error. */
  datatype Fate = Success | Refused | TimedOut

  /** What the cluster decides about one call: its fate, the uid or version it hands out,
      the order of a listing, the next key of a map iteration, a generated password. */
  datatype Input = Input(fate: Fate, tag: nat, listing: seq<Item>, dn: string, generated: string)

  datatype Answer = Answer(world: World, reply: Reply)

  predicate Matches(selector: Labels, labels: Labels) {
    forall l :: l in selector ==> l in labels && labels[l] == selector[l]
  }

  predicate Selected(store: Store, namespace: string, selector: Labels, name: string) {
    var key := Key(Snapshot, namespace, name);
    key in store && Matches(selector, store[key].meta.labels)
  }

  predicate Distinct(items: seq<Item>) {
    forall i, j :: 0 <= i < j < |items| ==> items[i].name != items[j].name
  }

  /** `items` lists each selected snapshot once, in any order. */
  ghost predicate IsListing(store: Store, namespace: string, selector: Labels, items: seq<Item>) {
    && Distinct(items)
    && (forall i :: 0 <= i < |items| ==>
          && Selected(store, namespace, selector, items[i].name)
          && store[Key(Snapshot, namespace, items[i].name)].meta.created == items[i].created)
    && (forall name :: Selected(store, namespace, selector, name) ==>
          exists i :: 0 <= i < |items| && items[i].name == name)
  }

  /** The same, as the API server can check it on its store. */
  predicate Lists(store: Store, namespace: string, selector: Labels, items: seq<Item>)
    ensures Lists(store, namespace, selector, items) <==> IsListing(store, namespace, selector, items)
  {
    var answer :=
      && Distinct(items)
      && (forall i :: 0 <= i < |items| ==>
            && Selected(store, namespace, selector, items[i].name)
            && store[Key(Snapshot, namespace, items[i].name)].meta.created == items[i].created)
      && (forall key :: key in store && key.kind == Snapshot && key.namespace == namespace
                        && Matches(selector, store[key].meta.labels) ==>
            exists i :: 0 <= i < |items| && items[i].name == key.name);
    assert answer ==> forall name :: Selected(store, namespace, selector, name) ==>
                        Key(Snapshot, namespace, name) in store;
    assert forall key :: key in store && key.kind == Snapshot && key.namespace == namespace ==>
        (Matches(selector, store[key].meta.labels) <==> Selected(store, namespace, selector, key.name));
    answer
  }

  function Written(w: World, key: Key, o: Object, tag: nat): World {
    w.(store := w.store[key := o], tags := w.tags + {tag})
  }

  function Removed(w: World, key: Key): World {
    w.(store := w.store - {key}, volumes := w.volumes - {key}, images := w.images - {key})
  }

  function Stamped(o: Object, tag: nat, clock: nat): Object {
    o.(meta := o.meta.(uid := tag, version := tag, created := clock))
  }

  function Versioned(o: Object, tag: nat): Object {
    o.(meta := o.meta.(version := tag))
  }

  /** What a PUT of `o` makes of the stored object: identity and status stay. */
  function Merged(stored: Object, o: Object): Object {
    Object(o.meta.(uid := stored.meta.uid, version := stored.meta.version, created := stored.meta.created),
           o.spec, stored.status)
  }

  /** A PUT is refused on a version conflict and does nothing when nothing changes. */
  function Put(w: World, key: Key, version: nat, target: Object, inp: Input): Answer
    requires key in w.store
  {
    if inp.fate.Refused? || w.store[key].meta.version != version || inp.tag in w.tags then
      Answer(w, Failed)
    else
      var w' := if target == w.store[key] then w else Written(w, key, Versioned(target, inp.tag), inp.tag);
      Answer(w', if inp.fate.Success? then Found(w'.store[key]) else Failed)
  }

  function Perform(w: World, call: Call, inp: Input): Answer {
    match call
    case Get(key) =>
      Answer(w, if !inp.fate.Success? then Failed
                else if key !in w.store then Missing
                else if Typed(key.kind, w.store[key]) then Found(w.store[key])
                else Failed)
    case List(namespace, selector) =>
      Answer(w, if inp.fate.Success? && Lists(w.store, namespace, selector, inp.listing)
                then Listed(inp.listing) else Failed)
    case Create(key, o) =>
      if inp.fate.Refused? || key in w.store || inp.tag in w.tags then Answer(w, Failed)
      else
        var made := Stamped(o, inp.tag, w.clock);
        Answer(Written(w, key, made, inp.tag), if inp.fate.Success? then Found(made) else Failed)
    case Replace(key, o) =>
      if key !in w.store then Answer(w, Failed)
      else Put(w, key, o.meta.version, Merged(w.store[key], o), inp)
    case ReplaceStatus(key, o) =>
      if key !in w.store then Answer(w, Failed)
      else Put(w, key, o.meta.version, w.store[key].(status := o.status), inp)
    case Delete(key) =>
      if inp.fate.Refused? || key !in w.store then Answer(w, Failed)
      else Answer(Removed(w, key), if inp.fate.Success? then Done else Failed)
    case Now => Answer(w, Time(w.clock))
    case Choose(dns) => Answer(w, if inp.dn in dns then Chosen(inp.dn) else Failed)
    case Attempt => Answer(w, if inp.fate.Success? then Done else Failed)
    case Bind(account, password) =>
      // A bind takes a connection of its own, which may not come about.
      Answer(w, if inp.fate.Refused? then Unreachable
                else if && inp.fate.Success? && password != "" && account in w.passwords
                        && w.passwords[account] == password
                then Done else Failed)
    case SetPassword(account, password) =>
      if inp.fate.Refused? || account !in w.passwords || inp.generated == "" then Answer(w, Failed)
      else
        // An empty new password asks the server to generate one (section 2 of RFC 3062).
        var value := if password == "" then inp.generated else password;
        Answer(w.(passwords := w.passwords[account := value]), if inp.fate.Success? then Done else Failed)
  }
}
