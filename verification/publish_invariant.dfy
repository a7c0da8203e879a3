/**
 Every reachable state of the publish system keeps the invariant: proofs step by
 step. `Moves` says what one job's work may touch.
 */
module PublishingInvariant {
  import opened BoxTables
  import BoxEvents
  import opened Publishing

  /** Good rows stay as they are, boxes stay with their owner, and a current version is
      never cleared. */
  ghost predicate Later(db: Db, arts: set<string>, db': Db, arts': set<string>) {
    && (forall key :: Good(db, arts, key) ==> Good(db', arts', key) && db'.bundles[key] == db.bundles[key])
    && (forall id :: id in db.boxes ==>
          id in db'.boxes && db'.boxes[id].ns == db.boxes[id].ns && (db.boxes[id].current != "" ==> db'.boxes[id].current != ""))
  }

  /** Only the row `key` may differ. */
  ghost predicate OnlyRow(db: Db, db': Db, key: (string, string)) {
    && (key !in db'.bundles ==> key !in db.bundles)
    && forall other :: other != key ==>
         (other in db.bundles <==> other in db'.bundles) && (other in db.bundles ==> db'.bundles[other] == db.bundles[other])
  }

  lemma RowsTouch(s: State, k: Job, w: Work, arts: set<string>)
    requires JobOk(s.db, s.artifacts, k) && s.artifacts <= arts
    ensures OnlyRow(s.db, Rows(s, k, w), k.Key())
    ensures Later(s.db, s.artifacts, Rows(s, k, w), arts)
  {}

  lemma OtherJob(db: Db, arts: set<string>, db': Db, arts': set<string>, key: (string, string), k: Job)
    requires JobOk(db, arts, k) && k.Key() != key
    requires OnlyRow(db, db', key) && Later(db, arts, db', arts') && arts <= arts'
    ensures JobOk(db', arts', k)
  {}

  lemma MovedJob(s: State, j: nat, w: Work)
    requires j < |s.jobs| && JobOk(s.db, s.artifacts, s.jobs[j])
    ensures var s' := Step(s, Do(j, w)); JobOk(s'.db, s'.artifacts, s'.jobs[j]) && s'.jobs[j].Key() == s.jobs[j].Key()
  {}

  lemma MovedBox(s: State, k: Job, w: Work, arts: set<string>, id: string)
    requires JobOk(s.db, s.artifacts, k) && s.artifacts <= arts && BoxOk(s.db, s.artifacts, id)
    ensures BoxOk(Rows(s, k, w), arts, id)
  {
    RowsTouch(s, k, w, arts);
  }

  lemma SameNotices(db: Db, arts: set<string>, db': Db, arts': set<string>, bus: seq<BoxEvents.Action>)
    requires Later(db, arts, db', arts') && forall i :: 0 <= i < |bus| ==> NoticeOk(db, arts, bus[i])
    ensures forall i :: 0 <= i < |bus| ==> NoticeOk(db', arts', bus[i])
  {}

  lemma WorkKeepsInv(s: State, j: nat, w: Work)
    requires Inv(s) && j < |s.jobs|
    ensures Inv(Step(s, Do(j, w)))
    ensures var s' := Step(s, Do(j, w)); Later(s.db, s.artifacts, s'.db, s'.artifacts)
  {
    var k, s' := s.jobs[j], Step(s, Do(j, w));
    RowsTouch(s, k, w, s'.artifacts);
    MovedJob(s, j, w);
    forall i | 0 <= i < |s.jobs| && i != j ensures JobOk(s'.db, s'.artifacts, s'.jobs[i]) {
      OtherJob(s.db, s.artifacts, s'.db, s'.artifacts, k.Key(), s.jobs[i]);
    }
    forall id ensures BoxOk(s'.db, s'.artifacts, id) { MovedBox(s, k, w, s'.artifacts, id); }
    SameNotices(s.db, s.artifacts, s'.db, s'.artifacts, s.bus);
    KeysStay(s, j, w);
  }

  lemma KeysStay(s: State, j: nat, w: Work)
    requires RowsOwned(s) && j < |s.jobs|
    requires OnlyRow(s.db, Rows(s, s.jobs[j], w), s.jobs[j].Key())
    ensures RowsOwned(Step(s, Do(j, w)))
  {
    var s' := Step(s, Do(j, w));
    forall key | key in s'.db.bundles ensures exists i :: 0 <= i < |s'.jobs| && s'.jobs[i].Key() == key {
      if key == s.jobs[j].Key() {
        assert s'.jobs[j].Key() == key;
      } else {
        var i :| 0 <= i < |s.jobs| && s.jobs[i].Key() == key;
        assert s'.jobs[i].Key() == key;
      }
    }
  }

  lemma StepKeepsInv(s: State, a: Action)
    requires Inv(s) && (a.Begin? ==> Fresh(s, a.id, a.version))
    ensures Inv(Step(s, a))
    ensures var s' := Step(s, a); Later(s.db, s.artifacts, s'.db, s'.artifacts)
  {
    var s' := Step(s, a);
    match a
    case Do(j, w) => if j < |s.jobs| { WorkKeepsInv(s, j, w); }
    case Begin(ns, id, version) => BeginKeepsInv(s, ns, id, version);
    case Create(ns, id, device, title, runtime, now) =>
      OthersKeepInv(s, s');
    case Archive(ns, id, now) =>
      OthersKeepInv(s, s');
    case Bus(_) =>
  }

  lemma BeginKeepsInv(s: State, ns: string, id: string, version: string)
    requires Inv(s) && Fresh(s, id, version)
    ensures Inv(Step(s, Begin(ns, id, version)))
  {
    var s' := Step(s, Begin(ns, id, version));
    assert BoxOk(s.db, s.artifacts, id);
    forall key | key in s'.db.bundles ensures exists i :: 0 <= i < |s'.jobs| && s'.jobs[i].Key() == key {
      var i :| 0 <= i < |s.jobs| && s.jobs[i].Key() == key;
      assert s'.jobs[i].Key() == key;
    }
  }

  lemma OthersKeepInv(s: State, s': State)
    requires Inv(s) && s' == s.(db := s'.db) && s'.db.bundles == s.db.bundles
    requires Later(s.db, s.artifacts, s'.db, s.artifacts)
    requires forall id :: BoxOk(s.db, s.artifacts, id) ==> BoxOk(s'.db, s.artifacts, id)
    ensures Inv(s')
  {
    forall i | 0 <= i < |s.jobs| ensures JobOk(s'.db, s.artifacts, s.jobs[i]) {
      assert JobOk(s.db, s.artifacts, s.jobs[i]);
    }
    SameNotices(s.db, s.artifacts, s'.db, s.artifacts, s.bus);
    assert forall i :: 0 <= i < |s.jobs| ==> s'.jobs[i] == s.jobs[i];
  }

  /** Over every run: the invariant, and good rows that stay as they are. */
  lemma {:induction false} RunKeepsInv(s: State, actions: seq<Action>)
    requires Inv(s) && FreshVersions(s, actions)
    ensures Inv(After(s, actions))
    ensures var s' := After(s, actions); Later(s.db, s.artifacts, s'.db, s'.artifacts)
  {
    if actions != [] {
      RunKeepsInv(s, actions[..|actions| - 1]);
      StepKeepsInv(After(s, actions[..|actions| - 1]), actions[|actions| - 1]);
    }
  }
}
