/**
 One call of BuildAndPublish with nothing else going on: the steps its job makes, for
 every way the call can end (relay/internal/box/service.go), and what they amount to.
 */
module PublishScript {
  import opened BoxTables
  import BoxEvents
  import opened Publishing
  import opened PublishingTheorems

  /** What the build, the upload and the URL came to; the log is the truncated one. */
  datatype Made = Made(hash: string, size: int, uri: string, log: string, expires: int)

  /** How the call goes. `written` says whether the row of the failure could be written, `flips`
      whether the state of an unpublished box could be. */
  datatype Fate =
    | NotMarked
    | BuildFails(log: string, written: bool)
    | UploadFails(hash: string, size: int, log: string, written: bool)
    | NotRecorded(hash: string, size: int)
    | NotPointed(made: Made)
    | Finishes(made: Made, flips: bool)
  {
    predicate Succeeds(seen: PublishState) { Finishes? && (flips || seen.Published?) }
  }

  /** The job's work from the lookup on. */
  function Path(fate: Fate, seen: PublishState, t0: int, t1: int): seq<Work> {
    if fate.NotMarked? then [Stop] else [Mark(t0)] + AfterMark(fate, seen, t1)
  }

  function AfterMark(fate: Fate, seen: PublishState, t1: int): seq<Work> {
    match fate
    case NotMarked => []
    case BuildFails(log, written) => [Ending(log, written, t1)]
    case UploadFails(hash, size, log, written) => [Build(hash, size)] + [Ending(log, written, t1)]
    case NotRecorded(hash, size) => [Build(hash, size)] + ([Upload] + [Stop])
    case NotPointed(m) => [Build(m.hash, m.size)] + ([Upload] + ([Recording(m, t1)] + [Stop]))
    case Finishes(m, _) =>
      [Build(m.hash, m.size)] + ([Upload] + ([Recording(m, t1)] + ([Point(t1)] +
        if fate.Succeeds(seen) then [Flip(t1)] + [Announce] else [Stop])))
  }

  function Ending(log: string, written: bool, t1: int): Work { if written then Fail(log, t1) else Stop }

  function Recording(m: Made, t1: int): Work { Record(m.uri, m.log, t1, m.expires) }

  function Doing(works: seq<Work>): seq<Action> {
    if works == [] then [] else [Do(0, works[0])] + Doing(works[1..])
  }

  function Script(ns: string, id: string, version: string, seen: PublishState, fate: Fate, t0: int, t1: int): seq<Action> {
    [Begin(ns, id, version)] + Doing(Path(fate, seen, t0, t1))
  }

  function Alone(db: Db, artifacts: set<string>): State { State(db, artifacts, [], []) }

  // ----- what it amounts to -----

  function PendingRow(t0: int): Bundle { Bundle("", "", 0, Running, "", t0, 0) }
  function FailedRow(log: string, t1: int): Bundle { Bundle("", "", 0, Failed, log, t1, 0) }
  function GoodRow(m: Made, t1: int): Bundle { Bundle(m.uri, m.hash, m.size, Succeeded, m.log, t1, m.expires) }

  /** The row the call leaves. */
  function FinalRow(fate: Fate, t0: int, t1: int): Bundle requires !fate.NotMarked? {
    match fate
    case BuildFails(log, written) => if written then FailedRow(log, t1) else PendingRow(t0)
    case UploadFails(_, _, log, written) => if written then FailedRow(log, t1) else PendingRow(t0)
    case NotRecorded(_, _) => PendingRow(t0)
    case NotPointed(m) => GoodRow(m, t1)
    case Finishes(m, _) => GoodRow(m, t1)
  }

  /** The box the call leaves. */
  function FinalBox(b: Box, version: string, fate: Fate, t1: int): Box {
    if !fate.Finishes? then b
    else if fate.Succeeds(b.state) then b.(current := version, updatedAt := t1, state := Published)
    else b.(current := version, updatedAt := t1)
  }

  function Net(db: Db, id: string, version: string, fate: Fate, t0: int, t1: int): Db requires id in db.boxes {
    if fate.NotMarked? then db
    else Db(db.boxes[id := FinalBox(db.boxes[id], version, fate, t1)], db.bundles[(id, version) := FinalRow(fate, t0, t1)])
  }

  function NetArtifacts(artifacts: set<string>, fate: Fate): set<string> {
    match fate
    case NotRecorded(hash, _) => artifacts + {hash}
    case NotPointed(m) => artifacts + {m.hash}
    case Finishes(m, _) => artifacts + {m.hash}
    case _ => artifacts
  }

  function EventOf(id: string, version: string, m: Made): BoxEvents.Event {
    BoxEvents.BundleReady(id, version, m.uri, m.hash, m.size)
  }

  function NetBus(ns: string, id: string, version: string, seen: PublishState, fate: Fate): seq<BoxEvents.Action> {
    if fate.Succeeds(seen) then [BoxEvents.Publish(ns, EventOf(id, version, fate.made))] else []
  }

  // ----- single steps -----

  /** The only job of the system, at some stage. */
  function At(db: Db, artifacts: set<string>, job: Job, at: Stage): State { State(db, artifacts, [job.(at := at)], []) }

  function WithRow(db: Db, key: (string, string), b: Bundle): Db { Db(db.boxes, db.bundles[key := b]) }

  lemma Unroll(s: State, w: Work, works: seq<Work>)
    ensures After(s, Doing([w] + works)) == After(Step(s, Do(0, w)), Doing(works))
  {
    assert ([w] + works)[1..] == works;
    AfterCons(s, Do(0, w), Doing(works));
  }

  lemma UnrollLast(s: State, w: Work)
    ensures After(s, Doing([w])) == Step(s, Do(0, w))
  {
    assert [w] + [] == [w];
    Unroll(s, w, []);
  }

  lemma Stops(db: Db, artifacts: set<string>, job: Job, at: Stage)
    ensures Step(At(db, artifacts, job, at), Do(0, Stop)) == At(db, artifacts, job, Ended)
  {}

  lemma Marks(db: Db, artifacts: set<string>, job: Job, t0: int)
    requires Owned(db, job.ns, job.box)
    ensures Step(At(db, artifacts, job, Looked), Do(0, Mark(t0))) ==
            At(WithRow(db, job.Key(), PendingRow(t0)), artifacts, job, Marked)
  {}

  lemma Ends(db: Db, artifacts: set<string>, job: Job, at: Stage, log: string, written: bool, t1: int)
    requires Owned(db, job.ns, job.box) && (at.Marked? || at.Built?)
    ensures Step(At(db, artifacts, job, at), Do(0, Ending(log, written, t1))) ==
            At(if written then WithRow(db, job.Key(), FailedRow(log, t1)) else db, artifacts, job, Ended)
  {}

  lemma BuildsAndUploads(db: Db, artifacts: set<string>, job: Job, hash: string, size: int, works: seq<Work>)
    ensures After(At(db, artifacts, job, Marked), Doing([Build(hash, size)] + ([Upload] + works))) ==
            After(At(db, artifacts + {hash}, job, Uploaded(hash, size)), Doing(works))
  {
    var s := At(db, artifacts, job, Marked);
    Unroll(s, Build(hash, size), [Upload] + works);
    assert Step(s, Do(0, Build(hash, size))) == At(db, artifacts, job, Built(hash, size));
    Unroll(At(db, artifacts, job, Built(hash, size)), Upload, works);
    assert Step(At(db, artifacts, job, Built(hash, size)), Do(0, Upload)) == At(db, artifacts + {hash}, job, Uploaded(hash, size));
  }

  lemma Records(db: Db, artifacts: set<string>, job: Job, m: Made, t1: int, works: seq<Work>)
    requires Owned(db, job.ns, job.box) && m.hash in artifacts
    ensures After(At(db, artifacts, job, Uploaded(m.hash, m.size)), Doing([Recording(m, t1)] + works)) ==
            After(At(WithRow(db, job.Key(), GoodRow(m, t1)), artifacts, job, Recorded(GoodRow(m, t1))), Doing(works))
  {
    Unroll(At(db, artifacts, job, Uploaded(m.hash, m.size)), Recording(m, t1), works);
    RecordsOnce(db, artifacts, job, m, t1);
  }

  lemma RecordsOnce(db: Db, artifacts: set<string>, job: Job, m: Made, t1: int)
    requires Owned(db, job.ns, job.box) && m.hash in artifacts
    ensures Step(At(db, artifacts, job, Uploaded(m.hash, m.size)), Do(0, Recording(m, t1))) ==
            At(WithRow(db, job.Key(), GoodRow(m, t1)), artifacts, job, Recorded(GoodRow(m, t1)))
  {
    var s := Step(At(db, artifacts, job, Uploaded(m.hash, m.size)), Do(0, Recording(m, t1)));
    assert s.db == WithRow(db, job.Key(), GoodRow(m, t1));
    assert s.jobs == [job.(at := Recorded(GoodRow(m, t1)))];
    assert s.bus == [];
  }

  function PointedDb(db: Db, job: Job, t1: int): Db requires job.box in db.boxes {
    Db(db.boxes[job.box := db.boxes[job.box].(current := job.version, updatedAt := t1)], db.bundles)
  }

  lemma Points(db: Db, artifacts: set<string>, job: Job, b: Bundle, t1: int, works: seq<Work>)
    requires Owned(db, job.ns, job.box)
    ensures After(At(db, artifacts, job, Recorded(b)), Doing([Point(t1)] + works)) ==
            After(At(PointedDb(db, job, t1), artifacts, job, Pointed(b)), Doing(works))
  {
    Unroll(At(db, artifacts, job, Recorded(b)), Point(t1), works);
    PointsOnce(db, artifacts, job, b, t1);
  }

  lemma PointsOnce(db: Db, artifacts: set<string>, job: Job, b: Bundle, t1: int)
    requires Owned(db, job.ns, job.box)
    ensures Step(At(db, artifacts, job, Recorded(b)), Do(0, Point(t1))) == At(PointedDb(db, job, t1), artifacts, job, Pointed(b))
  {
    var s := Step(At(db, artifacts, job, Recorded(b)), Do(0, Point(t1)));
    assert s.db.bundles == db.bundles;
    assert s.db.boxes == PointedDb(db, job, t1).boxes;
    assert s.jobs == [job.(at := Pointed(b))];
    assert s.bus == [];
  }

  lemma FlipsAndAnnounces(db: Db, artifacts: set<string>, job: Job, b: Bundle, t1: int)
    requires Owned(db, job.ns, job.box) && db.boxes[job.box].state == job.seen && db.boxes[job.box].updatedAt == t1
    ensures var s := After(At(db, artifacts, job, Pointed(b)), Doing([Flip(t1)] + [Announce]));
            && s.db == Db(db.boxes[job.box := db.boxes[job.box].(state := Published)], db.bundles) && s.artifacts == artifacts
            && s.bus == [BoxEvents.Publish(job.ns, BoxEvents.BundleReady(job.box, job.version, b.uri, b.hash, b.size))]
  {
    var s := At(db, artifacts, job, Pointed(b));
    Unroll(s, Flip(t1), [Announce]);
    UnrollLast(Step(s, Do(0, Flip(t1))), Announce);
    assert db.boxes[job.box := db.boxes[job.box]] == db.boxes;
  }

  // ----- the whole call -----

  /** The tables, artifacts and events after the works. */
  ghost predicate Leaves(s: State, works: seq<Work>, db: Db, artifacts: set<string>, bus: seq<BoxEvents.Action>) {
    var t := After(s, Doing(works)); t.db == db && t.artifacts == artifacts && t.bus == bus
  }

  lemma FailureLeaves(db: Db, artifacts: set<string>, job: Job, fate: Fate, t0: int, t1: int)
    requires Owned(db, job.ns, job.box) && (fate.BuildFails? || fate.UploadFails?)
    requires db.bundles == db.bundles[job.Key() := PendingRow(t0)]
    ensures Leaves(At(db, artifacts, job, Marked), AfterMark(fate, job.seen, t1),
                   WithRow(db, job.Key(), FinalRow(fate, t0, t1)), artifacts, [])
  {
    var s := At(db, artifacts, job, Marked);
    if fate.BuildFails? {
      UnrollLast(s, Ending(fate.log, fate.written, t1));
      Ends(db, artifacts, job, Marked, fate.log, fate.written, t1);
    } else {
      var at := Built(fate.hash, fate.size);
      Unroll(s, Build(fate.hash, fate.size), [Ending(fate.log, fate.written, t1)]);
      assert Step(s, Do(0, Build(fate.hash, fate.size))) == At(db, artifacts, job, at);
      UnrollLast(At(db, artifacts, job, at), Ending(fate.log, fate.written, t1));
      Ends(db, artifacts, job, at, fate.log, fate.written, t1);
    }
  }

  lemma StopLeaves(db: Db, artifacts: set<string>, job: Job, at: Stage)
    ensures Leaves(At(db, artifacts, job, at), [Stop], db, artifacts, [])
  {
    UnrollLast(At(db, artifacts, job, at), Stop);
    Stops(db, artifacts, job, at);
  }

  lemma PointingLeaves(db: Db, artifacts: set<string>, job: Job, fate: Fate, t1: int)
    requires Owned(db, job.ns, job.box) && db.boxes[job.box].state == job.seen && fate.Finishes?
    ensures Leaves(At(db, artifacts, job, Recorded(GoodRow(fate.made, t1))),
                   [Point(t1)] + if fate.Succeeds(job.seen) then [Flip(t1)] + [Announce] else [Stop],
                   Db(db.boxes[job.box := FinalBox(db.boxes[job.box], job.version, fate, t1)], db.bundles), artifacts,
                   NetBus(job.ns, job.box, job.version, job.seen, fate))
  {
    var b, db' := GoodRow(fate.made, t1), PointedDb(db, job, t1);
    Points(db, artifacts, job, b, t1, if fate.Succeeds(job.seen) then [Flip(t1)] + [Announce] else [Stop]);
    if fate.Succeeds(job.seen) {
      FlipsAndAnnounces(db', artifacts, job, b, t1);
    } else {
      StopLeaves(db', artifacts, job, Pointed(b));
    }
  }

  lemma UploadLeaves(db: Db, artifacts: set<string>, job: Job, fate: Fate, t0: int, t1: int)
    requires Owned(db, job.ns, job.box) && db.boxes[job.box].state == job.seen
    requires fate.NotRecorded? || fate.NotPointed? || fate.Finishes?
    requires db.bundles == db.bundles[job.Key() := PendingRow(t0)]
    ensures Leaves(At(db, artifacts, job, Marked), AfterMark(fate, job.seen, t1),
                   Net(db, job.box, job.version, fate, t0, t1), NetArtifacts(artifacts, fate),
                   NetBus(job.ns, job.box, job.version, job.seen, fate))
  {
    assert db.boxes[job.box := db.boxes[job.box]] == db.boxes;
    match fate {
      case NotRecorded(hash, size) =>
        BuildsAndUploads(db, artifacts, job, hash, size, [Stop]);
        StopLeaves(db, artifacts + {hash}, job, Uploaded(hash, size));
      case NotPointed(m) =>
        BuildsAndUploads(db, artifacts, job, m.hash, m.size, [Recording(m, t1)] + [Stop]);
        Records(db, artifacts + {m.hash}, job, m, t1, [Stop]);
        StopLeaves(WithRow(db, job.Key(), GoodRow(m, t1)), artifacts + {m.hash}, job, Recorded(GoodRow(m, t1)));
      case Finishes(m, _) =>
        var rest := [Point(t1)] + if fate.Succeeds(job.seen) then [Flip(t1)] + [Announce] else [Stop];
        BuildsAndUploads(db, artifacts, job, m.hash, m.size, [Recording(m, t1)] + rest);
        Records(db, artifacts + {m.hash}, job, m, t1, rest);
        PointingLeaves(WithRow(db, job.Key(), GoodRow(m, t1)), artifacts + {m.hash}, job, fate, t1);
    }
  }

  /** The steps of an accepted call, one after the other, leave at most one new row, a box pointing at
      it only if it is good, and one event exactly if the call succeeds. */
  lemma ScriptEffect(db: Db, artifacts: set<string>, ns: string, id: string, version: string, fate: Fate, t0: int, t1: int)
    requires Owned(db, ns, id) && !db.boxes[id].state.Archived?
    ensures var seen := db.boxes[id].state;
            var s := After(Alone(db, artifacts), Script(ns, id, version, seen, fate, t0, t1));
            && s.db == Net(db, id, version, fate, t0, t1) && s.artifacts == NetArtifacts(artifacts, fate)
            && s.bus == NetBus(ns, id, version, seen, fate)
  {
    var job := Job(ns, id, version, db.boxes[id].state, Looked);
    AfterCons(Alone(db, artifacts), Begin(ns, id, version), Doing(Path(fate, job.seen, t0, t1)));
    Begins(db, artifacts, job);
    if fate.NotMarked? {
      StopLeaves(db, artifacts, job, Looked);
    } else {
      MarkedLeaves(db, artifacts, job, fate, t0, t1);
    }
  }

  lemma MarkedLeaves(db: Db, artifacts: set<string>, job: Job, fate: Fate, t0: int, t1: int)
    requires Owned(db, job.ns, job.box) && db.boxes[job.box].state == job.seen && !fate.NotMarked?
    ensures Leaves(At(db, artifacts, job, Looked), Path(fate, job.seen, t0, t1),
                   Net(db, job.box, job.version, fate, t0, t1), NetArtifacts(artifacts, fate),
                   NetBus(job.ns, job.box, job.version, job.seen, fate))
  {
    var marked := WithRow(db, job.Key(), PendingRow(t0));
    Unroll(At(db, artifacts, job, Looked), Mark(t0), AfterMark(fate, job.seen, t1));
    Marks(db, artifacts, job, t0);
    assert marked.bundles == marked.bundles[job.Key() := PendingRow(t0)];
    if fate.BuildFails? || fate.UploadFails? {
      FailureLeaves(marked, artifacts, job, fate, t0, t1);
      assert db.boxes[job.box := db.boxes[job.box]] == db.boxes;
    } else {
      UploadLeaves(marked, artifacts, job, fate, t0, t1);
    }
    SameNet(db, job, fate, t0, t1);
  }

  /** The pending row is overwritten in the end. */
  lemma SameNet(db: Db, job: Job, fate: Fate, t0: int, t1: int)
    requires job.box in db.boxes && !fate.NotMarked?
    ensures Net(WithRow(db, job.Key(), PendingRow(t0)), job.box, job.version, fate, t0, t1) ==
            Net(db, job.box, job.version, fate, t0, t1)
  {
    var b := FinalRow(fate, t0, t1);
    assert db.bundles[job.Key() := PendingRow(t0)][job.Key() := b] == db.bundles[job.Key() := b];
  }

  lemma Begins(db: Db, artifacts: set<string>, job: Job)
    requires Owned(db, job.ns, job.box) && !db.boxes[job.box].state.Archived?
    requires job.seen == db.boxes[job.box].state && job.at == Looked
    ensures Step(Alone(db, artifacts), Begin(job.ns, job.box, job.version)) == At(db, artifacts, job, Looked)
  {}

  /** What Get shows after the steps of a call that got as far as making its version current, even
      if it then failed to flip the state: the bundle of that very call. */
  lemma PublishThenGet(db: Db, artifacts: set<string>, ns: string, id: string, version: string, fate: Fate, t0: int, t1: int)
    requires Owned(db, ns, id) && !db.boxes[id].state.Archived? && version != "" && fate.Finishes?
    ensures id in After(Alone(db, artifacts), Script(ns, id, version, db.boxes[id].state, fate, t0, t1)).db.boxes
    ensures var seen := db.boxes[id].state;
            var v := Shown(After(Alone(db, artifacts), Script(ns, id, version, seen, fate, t0, t1)).db, id);
            v.bundle == [GoodRow(fate.made, t1)] && v.box.current == version && (fate.Succeeds(seen) ==> v.box.state == Published)
  {
    ScriptEffect(db, artifacts, ns, id, version, fate, t0, t1);
  }
}
