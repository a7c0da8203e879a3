/**
 Concurrent publishes (relay/internal/box/service.go): every BuildAndPublish call is
 a job that makes one table, artifact or event step at a time and may stop at
 any of them, interleaved with Create, Archive and other jobs. Content hashes
 stand for the content they name.
 */
module Publishing {
  import opened BoxTables
  import BoxEvents

  /** Where a call of BuildAndPublish stands. */
  datatype Stage =
    | Looked
    | Marked
    | Built(hash: string, size: int)
    | Uploaded(hash: string, size: int)
    | Recorded(bundle: Bundle)
    | Pointed(bundle: Bundle)
    | Flipped(bundle: Bundle)
    | Ended

  /** `seen` is the state of the box when the call looked it up. */
  datatype Job = Job(ns: string, box: string, version: string, seen: PublishState, at: Stage) {
    function Key(): (string, string) { (box, version) }
  }

  /** `bus` is the history of the event registry. */
  datatype State = State(db: Db, artifacts: set<string>, jobs: seq<Job>, bus: seq<BoxEvents.Action>)

  datatype Work =
    | Mark(now: int)
    | Build(hash: string, size: int)
    | Fail(log: string, now: int)
    | Upload
    | Record(uri: string, log: string, now: int, expires: int)
    | Point(now: int)
    | Flip(now: int)
    | Announce
    | Stop

  datatype Action =
    | Create(ns: string, id: string, device: string, title: string, runtime: string, now: int)
    | Archive(ns: string, id: string, now: int)
    | Begin(ns: string, id: string, version: string)
    | Do(job: nat, work: Work)
    | Bus(event: BoxEvents.Action)

  function Initial(): State { State(Db(map[], map[]), {}, [], []) }

  function Step(s: State, a: Action): State {
    match a
    case Create(ns, id, device, title, runtime, now) =>
      if id in s.db.boxes then s
      else s.(db := s.db.(boxes := s.db.boxes[id := Box(ns, device, title, runtime, Draft, "", now, now)]))
    case Archive(ns, id, now) =>
      s.(db := WithState(s.db, ns, id, Archived, now))
    case Begin(ns, id, version) =>
      if Owned(s.db, ns, id) && !s.db.boxes[id].state.Archived?
      then s.(jobs := s.jobs + [Job(ns, id, version, s.db.boxes[id].state, Looked)]) else s
    case Do(j, w) =>
      if j < |s.jobs|
      then
        var k := s.jobs[j];
        State(Rows(s, k, w), if w.Upload? && k.at.Built? then s.artifacts + {k.at.hash} else s.artifacts,
              s.jobs[j := k.(at := Next(s, k, w))], s.bus + Notice(k, w))
      else s
    case Bus(b) =>
      if b.Publish? then s else s.(bus := s.bus + [b])
  }

  /** What work w of job k leaves in the tables. */
  function Rows(s: State, k: Job, w: Work): Db {
    if w.Mark? && k.at.Looked? then
      WithBundle(s.db, k.box, k.version, Bundle("", "", 0, Running, "", w.now, 0))
    else if w.Fail? && (k.at.Marked? || k.at.Built?) then
      WithBundle(s.db, k.box, k.version, Bundle("", "", 0, Failed, w.log, w.now, 0))
    else if w.Record? && k.at.Uploaded? && k.at.hash in s.artifacts then
      WithBundle(s.db, k.box, k.version, Finished(k, w))
    else if w.Point? && k.at.Recorded? then
      WithCurrent(s.db, k.ns, k.box, k.version, w.now)
    else if w.Flip? && k.at.Pointed? && !k.seen.Published? then
      WithState(s.db, k.ns, k.box, Published, w.now)
    else s.db
  }

  function Finished(k: Job, w: Work): Bundle requires w.Record? && k.at.Uploaded? {
    Bundle(w.uri, k.at.hash, k.at.size, Succeeded, w.log, w.now, w.expires)
  }

  function Next(s: State, k: Job, w: Work): Stage {
    match w
    case Mark(_) => if k.at.Looked? then if k.box in s.db.boxes then Marked else Ended else k.at
    case Build(hash, size) => if k.at.Marked? then Built(hash, size) else k.at
    case Fail(_, _) => if k.at.Marked? || k.at.Built? then Ended else k.at
    case Upload => if k.at.Built? then Uploaded(k.at.hash, k.at.size) else k.at
    case Record(_, _, _, _) =>
      if k.at.Uploaded?
      then if k.at.hash in s.artifacts && k.box in s.db.boxes then Recorded(Finished(k, w)) else Ended
      else k.at
    case Point(_) =>
      if k.at.Recorded? then if Owned(s.db, k.ns, k.box) then Pointed(k.at.bundle) else Ended else k.at
    case Flip(_) =>
      if k.at.Pointed?
      then if k.seen.Published? || Owned(s.db, k.ns, k.box) then Flipped(k.at.bundle) else Ended
      else k.at
    case Announce => if k.at.Flipped? then Ended else k.at
    case Stop => Ended
  }

  function Notice(k: Job, w: Work): seq<BoxEvents.Action> {
    if w.Announce? && k.at.Flipped? then
      var b := k.at.bundle;
      [BoxEvents.Publish(k.ns, BoxEvents.BundleReady(k.box, k.version, b.uri, b.hash, b.size))]
    else []
  }

  function After(s: State, actions: seq<Action>): State {
    if actions == [] then s else Step(After(s, actions[..|actions| - 1]), actions[|actions| - 1])
  }

  /** newVersion: never empty, never used for this box before. */
  ghost predicate Fresh(s: State, id: string, version: string) {
    version != "" && forall i :: 0 <= i < |s.jobs| ==> s.jobs[i].Key() != (id, version)
  }

  ghost predicate FreshVersions(s: State, actions: seq<Action>) {
    actions == [] ||
    var init, a := actions[..|actions| - 1], actions[|actions| - 1];
    FreshVersions(s, init) && (a.Begin? ==> Fresh(After(s, init), a.id, a.version))
  }

  // ----- the invariant -----

  predicate Good(db: Db, artifacts: set<string>, key: (string, string)) {
    key in db.bundles && db.bundles[key].state.Succeeded? && db.bundles[key].hash in artifacts
  }

  /** A current version names a good bundle, and a published box has one. */
  predicate BoxOk(db: Db, artifacts: set<string>, id: string) {
    id in db.boxes ==>
      && (db.boxes[id].current != "" ==> Good(db, artifacts, (id, db.boxes[id].current)))
      && (db.boxes[id].state.Published? ==> db.boxes[id].current != "")
  }

  /** A job's row tells where the job stands. */
  predicate JobOk(db: Db, artifacts: set<string>, k: Job) {
    && Owned(db, k.ns, k.box) && k.version != ""
    && (k.at.Looked? ==> k.Key() !in db.bundles)
    && (k.at.Marked? || k.at.Built? || k.at.Uploaded? ==> k.Key() in db.bundles && db.bundles[k.Key()].state.Running?)
    && (k.at.Uploaded? ==> k.at.hash in artifacts)
    && (k.at.Recorded? || k.at.Pointed? || k.at.Flipped? ==>
          Good(db, artifacts, k.Key()) && db.bundles[k.Key()] == k.at.bundle)
    && (k.at.Pointed? || k.at.Flipped? ==> db.boxes[k.box].current != "")
    && (k.seen.Published? ==> db.boxes[k.box].current != "")
  }

  /** An announced bundle is good, and announced as it was recorded. */
  predicate NoticeOk(db: Db, artifacts: set<string>, b: BoxEvents.Action) {
    b.Publish? ==>
      && Good(db, artifacts, (b.event.box, b.event.version))
      && var row := db.bundles[(b.event.box, b.event.version)];
         row.uri == b.event.uri && row.hash == b.event.hash && row.size == b.event.size
  }

  ghost predicate JobsOk(s: State) {
    && (forall i :: 0 <= i < |s.jobs| ==> JobOk(s.db, s.artifacts, s.jobs[i]))
    && (forall i, j :: 0 <= i < j < |s.jobs| ==> s.jobs[i].Key() != s.jobs[j].Key())
  }

  ghost predicate RowsOwned(s: State) {
    forall key :: key in s.db.bundles ==> exists i :: 0 <= i < |s.jobs| && s.jobs[i].Key() == key
  }

  ghost predicate Inv(s: State) {
    && (forall id :: BoxOk(s.db, s.artifacts, id))
    && JobsOk(s) && RowsOwned(s)
    && (forall i :: 0 <= i < |s.bus| ==> NoticeOk(s.db, s.artifacts, s.bus[i]))
  }
}
