/**
 The box use-cases as undisturbed calls on the real tables, artifacts, events and
 workspace (relay/internal/box/service.go, box/quota.go). A call of BuildAndPublish
 leaves what the steps of one job of the publish system leave.
 */
module BoxService {
  import opened Wire
  import opened Calendar
  import opened TurnTable
  import opened BoxTables
  import BoxEvents
  import opened Quota
  import opened Publishing
  import opened PublishingTheorems
  import opened PublishScript
  import Flat
  import Repository

  datatype Failure =
    | NoNamespace
    | PlanExhausted(window: Window, retryAfter: int)
    | NotFound
    | IsArchivedBox(id: string)
    | WorkspaceFailed
    | BuildFailed(failed: Bundle)
    | NotWritten
    | NotCreated

  /** What an accepted call returns: its error, or none. */
  function ErrorOf(fate: Fate, seen: PublishState, t1: int): Option<Failure> {
    match fate
    case BuildFails(log, _) => Some(BuildFailed(FailedRow(log, t1)))
    case UploadFails(_, _, log, _) => Some(BuildFailed(FailedRow(log, t1)))
    case _ => if fate.Succeeds(seen) then None else Some(NotWritten)
  }

  /** Announced events reach a subscription as the registry offers them. */
  function Notified(l: BoxEvents.Line, ns: string, id: string, version: string, seen: PublishState, fate: Fate): BoxEvents.Line {
    if fate.Succeeds(seen) then l.Offer(ns, EventOf(id, version, fate.made)) else l
  }

  // ----- what the answer says about the tables -----

  /** For a version that no row and no box bears yet: the call answers with no error exactly if the box is
      now published with this version, and the version's row is a succeeded one. */
  predicate AnswersTruly(before: Db, after: Db, id: string, version: string, r: Option<Failure>) {
    version != "" && (id, version) !in before.bundles && (id in before.boxes ==> before.boxes[id].current != version) ==>
      (r.None? <==>
         && id in after.boxes && after.boxes[id].state.Published? && after.boxes[id].current == version
         && (id, version) in after.bundles && after.bundles[(id, version)].state.Succeeded?)
  }

  /** A build or an upload that failed, and then no box is any different. */
  predicate FailsCleanly(before: Db, after: Db, r: Option<Failure>) {
    r.Some? && r.value.BuildFailed? ==> after.boxes == before.boxes && r.value.failed.state.Failed?
  }

  /** A subscription is offered the event exactly if there was no error, and then it names the row. */
  predicate Announced(l: BoxEvents.Line, l': BoxEvents.Line, after: Db, ns: string, id: string, version: string, r: Option<Failure>) {
    if r.Some? then l' == l
    else
      && (id, version) in after.bundles
      && var row := after.bundles[(id, version)];
         l' == l.Offer(ns, BoxEvents.BundleReady(id, version, row.uri, row.hash, row.size))
  }

  lemma ErrorsAreTrue(db: Db, id: string, version: string, fate: Fate, t0: int, t1: int)
    requires id in db.boxes
    ensures var after, r := Net(db, id, version, fate, t0, t1), ErrorOf(fate, db.boxes[id].state, t1);
            && AnswersTruly(db, after, id, version, r) && FailsCleanly(db, after, r)
            && (r.Some? && r.value.BuildFailed? <==> fate.BuildFails? || fate.UploadFails?)
  {
    if !fate.NotMarked? && !fate.Finishes? { assert db.boxes[id := db.boxes[id]] == db.boxes; }
  }

  lemma EventsAreTrue(db: Db, ns: string, id: string, version: string, fate: Fate, t0: int, t1: int, l: BoxEvents.Line)
    requires id in db.boxes
    ensures var seen := db.boxes[id].state;
            Announced(l, Notified(l, ns, id, version, seen, fate), Net(db, id, version, fate, t0, t1), ns, id, version, ErrorOf(fate, seen, t1))
  {}

  /** What the steps of a call leave, and what it answers. */
  lemma CallIsTrue(before: Db, arts: set<string>, after: Db, ns: string, id: string, version: string, fate: Fate, t0: int, t1: int)
    requires Owned(before, ns, id) && !before.boxes[id].state.Archived?
    requires Publishing.After(Alone(before, arts), Script(ns, id, version, before.boxes[id].state, fate, t0, t1)).db == after
    ensures var seen := before.boxes[id].state; var r := ErrorOf(fate, seen, t1);
            && AnswersTruly(before, after, id, version, r) && FailsCleanly(before, after, r)
            && (r.Some? && r.value.BuildFailed? <==> fate.BuildFails? || fate.UploadFails?)
            && forall l :: Announced(l, Notified(l, ns, id, version, seen, fate), after, ns, id, version, r)
  {
    ScriptEffect(before, arts, ns, id, version, fate, t0, t1);
    ErrorsAreTrue(before, id, version, fate, t0, t1);
    forall l { EventsAreTrue(before, ns, id, version, fate, t0, t1, l); }
  }

  // ----- the sources -----

  /** One write per file, in some order. */
  ghost predicate Lists(ops: seq<Repository.WriteOp>, files: map<string, string>) {
    && (forall i, j :: 0 <= i < j < |ops| ==> ops[i].path != ops[j].path)
    && (forall i :: 0 <= i < |ops| ==> ops[i].path in files && ops[i].content == files[ops[i].path] && !ops[i].delete)
    && (forall p :: p in files ==> Writes(ops, p))
  }

  ghost predicate Writes(ops: seq<Repository.WriteOp>, p: string) { exists i :: 0 <= i < |ops| && ops[i].path == p }

  lemma WritesMore(ops: seq<Repository.WriteOp>, op: Repository.WriteOp, p: string)
    requires p == op.path || Writes(ops, p)
    ensures Writes(ops + [op], p)
  {
    var all := ops + [op];
    if p == op.path {
      assert all[|ops|].path == p;
    } else {
      var i :| 0 <= i < |ops| && ops[i].path == p;
      assert all[i].path == p;
    }
  }

  method OpsOf(files: map<string, string>) returns (ops: seq<Repository.WriteOp>)
    ensures Lists(ops, files) && (ops == [] <==> files == map[])
  {
    ops := [];
    var todo := files.Keys;
    while todo != {}
      invariant todo <= files.Keys
      invariant forall i, j :: 0 <= i < j < |ops| ==> ops[i].path != ops[j].path
      invariant forall i :: 0 <= i < |ops| ==>
                  ops[i].path in files.Keys - todo && ops[i].content == files[ops[i].path] && !ops[i].delete
      invariant forall p :: p in files ==> p in todo || Writes(ops, p)
      decreases todo
    {
      var p :| p in todo;
      var op := Repository.WriteOp(p, files[p], false);
      forall q | q in files && q !in todo - {p} ensures Writes(ops + [op], q) { WritesMore(ops, op, q); }
      ops, todo := ops + [op], todo - {p};
    }
    assert ops != [] ==> ops[0].path in files;
    if p :| p in files { assert Writes(ops, p); }
  }

  function CallOf(ops: seq<Repository.WriteOp>, version: string, time: int, stored: bool): Repository.Call {
    Repository.Call(ops, "publish " + version, "appunvs", "agent@appunvs", time, stored)
  }

  // The files the builder sees: given files are committed first, and then it is the snapshot of the
  // head, or the given files themselves when there is no workspace. None is a failed commit.
  method Sources(repo: Repository.Repo?, files: map<string, string>, version: string, time: int, stored: bool)
    returns (sources: Option<Flat.Files>, ops: seq<Repository.WriteOp>)
    requires repo != null ==> repo.Valid()
    modifies if repo == null then {} else {repo}
    ensures repo == null ==> sources == Some(files)
    ensures repo != null ==> repo.Valid() && Lists(ops, files)
    ensures repo != null && files == map[] ==> repo.head == old(repo.head) && sources == Some(Repository.FilesAt(repo.head))
    ensures repo != null && files != map[] ==>
              && Repository.CommitStep(old(repo.head), CallOf(ops, version, time, stored), repo.head)
              && sources == if stored && Repository.ApplyOps(Repository.FilesAt(old(repo.head)), ops).Some?
                            then Some(Repository.FilesAt(repo.head)) else None
  {
    ops := OpsOf(files);
    if repo == null { return Some(files), ops; }
    if ops != [] {
      var commit := repo.Commit(CallOf(ops, version, time, stored));
      if commit.None? { return None, ops; }
    }
    var snapshot := repo.Snapshot();
    sources := Some(snapshot);
  }

  class Service {
    const boxes: Boxes
    const events: BoxEvents.Events
    const turns: Turns
    const plans: Option<string -> Plan>
    var artifacts: set<string>

    constructor (boxes: Boxes, events: BoxEvents.Events, turns: Turns, plans: Option<string -> Plan>)
      ensures this.boxes == boxes && this.events == events && this.turns == turns && this.plans == plans && artifacts == {}
    {
      this.boxes, this.events, this.turns, this.plans, artifacts := boxes, events, turns, plans, {};
    }

    method Used(ns: string, now: int) returns (u: Option<Quota.Used>)
      ensures u == UsedBy(boxes.Tables(), turns.rows, ns, now)
    {
      if ns == "" { return None; }
      var runs := boxes.SandboxRunsByNamespace(ns, Millis(StartOfMonth(now)));
      var active := boxes.ActiveByNamespace(ns);
      var db := boxes.Tables();
      u := Some(Quota.Used(Last5d(db, turns.rows, ns, now), ThisMonth(db, turns.rows, ns, now), runs, active, now));
    }

    /** None lets the call through. */
    function Refusal(ns: string, now: int, sandbox: bool): Option<Failure> reads boxes, turns {
      if plans.None? then None
      else
        var u := UsedBy(boxes.Tables(), turns.rows, ns, now);
        if u.None? then Some(NoNamespace)
        else
          var d := if sandbox then CheckSandbox(u.value, plans.value(ns)) else CheckStorage(u.value, plans.value(ns));
          if d.allowed then None else Some(PlanExhausted(d.limitedBy, d.retryAfter))
    }

    // gateSandbox and gateStorage: without a quota wired in, nothing is refused.
    method Gate(ns: string, now: int, sandbox: bool) returns (r: Option<Failure>)
      ensures r == Refusal(ns, now, sandbox)
      ensures plans.None? ==> r == None
      ensures plans.Some? && ns == "" ==> r == Some(NoNamespace)
      ensures plans.Some? && ns != "" && sandbox ==>
                var cap, runs := plans.value(ns).runsPerMonth, |RunsSince(boxes.Tables(), ns, Millis(StartOfMonth(now)))|;
                r == if cap >= 0 && runs >= cap then Some(PlanExhausted(Sandbox, NextMonth(now) - now)) else None
      ensures plans.Some? && ns != "" && !sandbox ==>
                var cap, active := plans.value(ns).activeBoxes, |ActiveBoxes(boxes.Tables(), ns)|;
                r == if cap >= 0 && active >= cap then Some(PlanExhausted(Storage, 0)) else None
    {
      if plans.None? { return None; }
      var u := Used(ns, now);
      if u.None? { return Some(NoNamespace); }
      BoxGatesDecide(boxes.Tables(), turns.rows, ns, plans.value(ns), now);
      var d := if sandbox then CheckSandbox(u.value, plans.value(ns)) else CheckStorage(u.value, plans.value(ns));
      r := if d.allowed then None else Some(PlanExhausted(d.limitedBy, d.retryAfter));
    }

    // `id` is the fresh identifier; an id that is taken is refused by the table.
    method Create(ns: string, device: string, title: string, runtime: string, id: string, now: int)
      returns (r: Option<Failure>)
      modifies boxes`boxes
      ensures old(Refusal(ns, now, false)).Some? ==> r == old(Refusal(ns, now, false)) && boxes.Tables() == old(boxes.Tables())
      ensures old(Refusal(ns, now, false)).None? ==>
                && r == (if id in old(boxes.boxes) then Some(NotCreated) else None)
                && boxes.Tables() == Step(Alone(old(boxes.Tables()), artifacts),
                     Publishing.Create(ns, id, device, title, if runtime == "" then "rn_bundle" else runtime, Millis(now))).db
      ensures r.None? ==>
                && id !in old(boxes.boxes)
                && boxes.boxes == old(boxes.boxes)[id := Box(ns, device, title, if runtime == "" then "rn_bundle" else runtime,
                                                             Draft, "", Millis(now), Millis(now))]
      ensures r.Some? ==> boxes.boxes == old(boxes.boxes)
    {
      r := Gate(ns, now, false);
      if r.Some? { return; }
      var kind := if runtime == "" then "rn_bundle" else runtime;
      var ok := boxes.Create(id, Box(ns, device, title, kind, Draft, "", Millis(now), Millis(now)), Millis(now));
      if !ok { r := Some(NotCreated); }
    }

    method Get(ns: string, id: string) returns (r: Option<View>)
      ensures r.Some? <==> Owned(boxes.Tables(), ns, id)
      ensures r.Some? ==> r.value == Shown(boxes.Tables(), id)
    {
      var b := boxes.Get(ns, id);
      if b.None? { return None; }
      if b.value.current == "" { return Some(View(b.value, [])); }
      var bundle := boxes.GetBundle(id, b.value.current);
      r := Some(View(b.value, if bundle.Some? then [bundle.value] else []));
    }

    method Archive(ns: string, id: string, now: int) returns (r: Option<Failure>)
      modifies boxes`boxes
      ensures r == if Owned(old(boxes.Tables()), ns, id) then None else Some(NotFound)
      ensures boxes.Tables() == Step(Alone(old(boxes.Tables()), artifacts), Publishing.Archive(ns, id, now)).db
      ensures boxes.boxes == if r.None? then old(boxes.boxes)[id := old(boxes.boxes)[id].(state := Archived, updatedAt := now)]
                             else old(boxes.boxes)
    {
      var found := boxes.SetState(ns, id, Archived, now);
      r := if found then None else Some(NotFound);
    }

    /** Refused calls: by the gate, then by the lookup. */
    function PublishRefusal(ns: string, id: string, start: int): Option<Failure> reads boxes, turns {
      if Refusal(ns, start, true).Some? then Refusal(ns, start, true)
      else if !Owned(boxes.Tables(), ns, id) then Some(NotFound)
      else if boxes.boxes[id].state.Archived? then Some(IsArchivedBox(id))
      else None
    }

    // The part after the sources: the rows, the upload, the current version, the state and the event.
    method Carry(ns: string, id: string, version: string, fate: Fate, t0: int, t1: int, seen: PublishState)
      returns (r: Option<Failure>)
      requires Owned(boxes.Tables(), ns, id) && boxes.boxes[id].state == seen && events.Valid()
      modifies boxes, this`artifacts, events.Members(ns)`ch
      ensures boxes.Tables() == Net(old(boxes.Tables()), id, version, fate, t0, t1)
      ensures artifacts == NetArtifacts(old(artifacts), fate)
      ensures r == ErrorOf(fate, seen, t1)
      ensures forall l :: l in events.Members(ns) ==> l.View() == Notified(old(l.View()), ns, id, version, seen, fate)
    {
      if fate.NotMarked? { return Some(NotWritten); }
      var _ := boxes.PutBundle(id, version, PendingRow(t0));
      assert boxes.boxes == boxes.boxes[id := boxes.boxes[id]];
      if fate.BuildFails? || fate.UploadFails? {
        var failed := FailedRow(fate.log, t1);
        if fate.written { var _ := boxes.PutBundle(id, version, failed); }
        return Some(BuildFailed(failed));
      }
      if fate.NotRecorded? {
        artifacts := artifacts + {fate.hash};
        return Some(NotWritten);
      }
      artifacts := artifacts + {fate.made.hash};
      r := Persist(ns, id, version, fate, t1, seen);
      if r.None? {
        var _ := events.Publish(ns, EventOf(id, version, fate.made));
      }
    }

    method Persist(ns: string, id: string, version: string, fate: Fate, t1: int, seen: PublishState)
      returns (r: Option<Failure>)
      requires Owned(boxes.Tables(), ns, id) && boxes.boxes[id].state == seen && (fate.NotPointed? || fate.Finishes?)
      modifies boxes
      ensures boxes.boxes == old(boxes.boxes)[id := FinalBox(old(boxes.boxes)[id], version, fate, t1)]
      ensures boxes.bundles == old(boxes.bundles)[(id, version) := GoodRow(fate.made, t1)]
      ensures r == ErrorOf(fate, seen, t1)
    {
      var _ := boxes.PutBundle(id, version, GoodRow(fate.made, t1));
      if fate.NotPointed? {
        assert boxes.boxes == boxes.boxes[id := boxes.boxes[id]];
        return Some(NotWritten);
      }
      var _ := boxes.SetCurrentVersion(ns, id, version, t1);
      if seen != Published {
        if !fate.flips { return Some(NotWritten); }
        var _ := boxes.SetState(ns, id, Published, t1);
      }
      r := None;
    }

    ghost predicate Left(before: Db, arts: set<string>, actions: seq<Action>) reads this, boxes {
      var s := After(Alone(before, arts), actions);
      boxes.Tables() == s.db && artifacts == s.artifacts
    }

    // Carry, seen as the steps of a job.
    method Publish(ns: string, id: string, version: string, fate: Fate, t0: int, t1: int, seen: PublishState)
      returns (r: Option<Failure>)
      requires Owned(boxes.Tables(), ns, id) && boxes.boxes[id].state == seen && !seen.Archived? && events.Valid()
      modifies boxes, this`artifacts, events.Members(ns)`ch
      ensures Left(old(boxes.Tables()), old(artifacts), Script(ns, id, version, seen, fate, t0, t1))
      ensures r == ErrorOf(fate, seen, t1)
      ensures forall l :: l in events.Members(ns) ==> l.View() == Notified(old(l.View()), ns, id, version, seen, fate)
    {
      ScriptEffect(boxes.Tables(), artifacts, ns, id, version, fate, t0, t1);
      r := Carry(ns, id, version, fate, t0, t1, seen);
    }

    // An accepted call: the sources, and the build, of which `builder` says how all after it goes.
    method Proceed(ns: string, id: string, version: string, repo: Repository.Repo?, files: map<string, string>,
                   stored: bool, builder: Flat.Files -> Fate, start: int, t1: int)
      returns (r: Option<Failure>, sources: Option<Flat.Files>)
      requires events.Valid() && (repo != null ==> repo.Valid())
      requires Owned(boxes.Tables(), ns, id) && !boxes.boxes[id].state.Archived?
      modifies boxes, this`artifacts, events.Members(ns)`ch, if repo == null then {} else {repo}
      ensures sources.None? ==>
                && r == Some(WorkspaceFailed) && repo != null && repo.head == old(repo.head)
                && boxes.Tables() == old(boxes.Tables()) && artifacts == old(artifacts)
      ensures sources.Some? ==>
                && r == ErrorOf(builder(sources.value), old(boxes.boxes)[id].state, t1)
                && sources.value == (if repo == null then files else Repository.FilesAt(repo.head))
                && Left(old(boxes.Tables()), old(artifacts),
                        Script(ns, id, version, old(boxes.boxes)[id].state, builder(sources.value), Millis(start), t1))
      ensures forall l :: l in events.Members(ns) ==>
                l.View() == if sources.Some?
                            then Notified(old(l.View()), ns, id, version, old(boxes.boxes)[id].state, builder(sources.value))
                            else old(l.View())
    {
      var seen, ops := boxes.boxes[id].state, [];
      sources, ops := Sources(repo, files, version, Millis(start), stored);
      if sources.None? { return Some(WorkspaceFailed), None; }
      r := Publish(ns, id, version, builder(sources.value), Millis(start), t1, seen);
    }

    // Gate first, so a caller at the cap learns nothing about other boxes; then the lookup.
    method Attempt(ns: string, id: string, version: string, repo: Repository.Repo?, files: map<string, string>,
                           stored: bool, builder: Flat.Files -> Fate, start: int, t1: int)
      returns (r: Option<Failure>, sources: Option<Flat.Files>)
      requires events.Valid() && (repo != null ==> repo.Valid())
      modifies boxes, this`artifacts, events.Members(ns)`ch, if repo == null then {} else {repo}
      ensures old(PublishRefusal(ns, id, start)).Some? ==> r == old(PublishRefusal(ns, id, start)) && sources == None
      ensures sources.None? ==>
                && (old(PublishRefusal(ns, id, start)).None? ==> r == Some(WorkspaceFailed) && repo != null)
                && boxes.Tables() == old(boxes.Tables()) && artifacts == old(artifacts)
                && (repo != null ==> repo.head == old(repo.head))
      ensures sources.Some? ==>
                && r == ErrorOf(builder(sources.value), old(boxes.boxes)[id].state, t1)
                && sources.value == (if repo == null then files else Repository.FilesAt(repo.head))
                && Left(old(boxes.Tables()), old(artifacts),
                        Script(ns, id, version, old(boxes.boxes)[id].state, builder(sources.value), Millis(start), t1))
      ensures forall l :: l in events.Members(ns) ==>
                l.View() == if sources.Some?
                            then Notified(old(l.View()), ns, id, version, old(boxes.boxes)[id].state, builder(sources.value))
                            else old(l.View())
    {
      r := Gate(ns, start, true);
      if r.Some? { return r, None; }
      var found := boxes.Get(ns, id);
      if found.None? { return Some(NotFound), None; }
      if found.value.state.Archived? { return Some(IsArchivedBox(id)), None; }
      r, sources := Proceed(ns, id, version, repo, files, stored, builder, start, t1);
    }

    // The whole call, and what its answer means.
    method BuildAndPublish(ns: string, id: string, version: string, repo: Repository.Repo?, files: map<string, string>,
                           stored: bool, builder: Flat.Files -> Fate, start: int, t1: int)
      returns (r: Option<Failure>, sources: Option<Flat.Files>)
      requires events.Valid() && (repo != null ==> repo.Valid())
      modifies boxes, this`artifacts, events.Members(ns)`ch, if repo == null then {} else {repo}
      ensures old(PublishRefusal(ns, id, start)).Some? ==> r == old(PublishRefusal(ns, id, start)) && sources == None
      ensures sources.None? ==>
                && (old(PublishRefusal(ns, id, start)).None? ==> r == Some(WorkspaceFailed) && repo != null)
                && boxes.Tables() == old(boxes.Tables()) && artifacts == old(artifacts)
                && (repo != null ==> repo.head == old(repo.head))
      ensures sources.Some? ==>
                && r == ErrorOf(builder(sources.value), old(boxes.boxes)[id].state, t1)
                && sources.value == (if repo == null then files else Repository.FilesAt(repo.head))
                && Left(old(boxes.Tables()), old(artifacts),
                        Script(ns, id, version, old(boxes.boxes)[id].state, builder(sources.value), Millis(start), t1))
      ensures forall l :: l in events.Members(ns) ==>
                l.View() == if sources.Some?
                            then Notified(old(l.View()), ns, id, version, old(boxes.boxes)[id].state, builder(sources.value))
                            else old(l.View())
      // A box of another namespace and an archived one are refused by name.
      ensures old(Refusal(ns, start, true)).None? && !Owned(old(boxes.Tables()), ns, id) ==> r == Some(NotFound)
      ensures old(Refusal(ns, start, true)).None? && Owned(old(boxes.Tables()), ns, id) && old(boxes.boxes)[id].state.Archived? ==>
                r == Some(IsArchivedBox(id))
      // The answer is true of the tables and of the events.
      ensures AnswersTruly(old(boxes.Tables()), boxes.Tables(), id, version, r)
      ensures FailsCleanly(old(boxes.Tables()), boxes.Tables(), r)
      ensures r.Some? && r.value.BuildFailed? <==>
                sources.Some? && (builder(sources.value).BuildFails? || builder(sources.value).UploadFails?)
      ensures forall l :: l in events.Members(ns) ==>
                Announced(old(l.View()), l.View(), boxes.Tables(), ns, id, version, r)
    {
      ghost var before, arts := boxes.Tables(), artifacts;
      r, sources := Attempt(ns, id, version, repo, files, stored, builder, start, t1);
      if sources.Some? {
        CallIsTrue(before, arts, boxes.Tables(), ns, id, version, builder(sources.value), Millis(start), t1);
      }
    }
  }
}
