/**
 Versions brought by the caller instead of drawn fresh: which ones a call may reuse so
 that every box goes on showing a built bundle, whatever happens afterwards.
 */
module PublishingReuse {
  import opened BoxTables
  import opened Publishing
  import opened PublishingTheorems

  /** The job may still write its row. */
  predicate Rewrites(at: Stage) { at.Looked? || at.Marked? || at.Built? || at.Uploaded? }

  /** The job may still write its row or make it the current one. */
  predicate Active(at: Stage) { Rewrites(at) || at.Recorded? }

  predicate Claims(k: Job, key: (string, string)) { k.Key() == key && Active(k.at) }

  /** The version is not the box's current one, and no call under way can still make it that. */
  ghost predicate Unclaimed(s: State, id: string, version: string) {
    && version != ""
    && (id in s.db.boxes ==> s.db.boxes[id].current != version)
    && forall i :: 0 <= i < |s.jobs| ==> !Claims(s.jobs[i], (id, version))
  }

  ghost predicate UnclaimedVersions(s: State, actions: seq<Action>) {
    actions == [] ||
    var init, a := actions[..|actions| - 1], actions[|actions| - 1];
    UnclaimedVersions(s, init) && (a.Begin? ==> Unclaimed(After(s, init), a.id, a.version))
  }

  /** Every box shows a built and uploaded bundle or none, and a published one shows one. */
  ghost predicate AllShown(s: State) { forall id :: BoxOk(s.db, s.artifacts, id) }

  predicate JobSafe(db: Db, artifacts: set<string>, k: Job) {
    && Owned(db, k.ns, k.box) && k.version != ""
    && (Rewrites(k.at) ==> db.boxes[k.box].current != k.version)
    && (k.at.Uploaded? ==> k.at.hash in artifacts)
    && (k.at.Recorded? ==> Good(db, artifacts, k.Key()))
    && (k.at.Pointed? || k.at.Flipped? || k.seen.Published? ==> db.boxes[k.box].current != "")
  }

  predicate Apart(k: Job, o: Job) { Active(k.at) && Active(o.at) ==> k.Key() != o.Key() }

  ghost predicate Safe(s: State) {
    && AllShown(s)
    && (forall i :: 0 <= i < |s.jobs| ==> JobSafe(s.db, s.artifacts, s.jobs[i]))
    && (forall i, j :: 0 <= i < j < |s.jobs| ==> Apart(s.jobs[i], s.jobs[j]))
  }

  // ----- safe states stay safe -----

  lemma BoxStaysOk(s: State, k: Job, w: Work, arts: set<string>, id: string)
    requires JobSafe(s.db, s.artifacts, k) && s.artifacts <= arts && BoxOk(s.db, s.artifacts, id)
    ensures BoxOk(Rows(s, k, w), arts, id)
  {}

  lemma OtherStaysSafe(s: State, k: Job, w: Work, arts: set<string>, o: Job)
    requires JobSafe(s.db, s.artifacts, k) && JobSafe(s.db, s.artifacts, o) && Apart(k, o) && s.artifacts <= arts
    ensures JobSafe(Rows(s, k, w), arts, o)
  {}

  lemma MoverStaysSafe(s: State, j: nat, w: Work)
    requires j < |s.jobs| && JobSafe(s.db, s.artifacts, s.jobs[j])
    ensures var s' := Step(s, Do(j, w)); JobSafe(s'.db, s'.artifacts, s'.jobs[j])
    ensures var k' := Step(s, Do(j, w)).jobs[j]; k'.Key() == s.jobs[j].Key() && (Active(k'.at) ==> Active(s.jobs[j].at))
  {}

  lemma ApartIsMutual(k: Job, o: Job)
    ensures Apart(k, o) <==> Apart(o, k)
  {}

  lemma WorkStaysSafe(s: State, j: nat, w: Work)
    requires Safe(s) && j < |s.jobs|
    ensures Safe(Step(s, Do(j, w)))
  {
    var k, s' := s.jobs[j], Step(s, Do(j, w));
    MoverStaysSafe(s, j, w);
    forall id ensures BoxOk(s'.db, s'.artifacts, id) { BoxStaysOk(s, k, w, s'.artifacts, id); }
    forall i | 0 <= i < |s.jobs| && i != j ensures JobSafe(s'.db, s'.artifacts, s'.jobs[i]) {
      ApartIsMutual(k, s.jobs[i]);
      OtherStaysSafe(s, k, w, s'.artifacts, s.jobs[i]);
    }
    forall a, b | 0 <= a < b < |s'.jobs| ensures Apart(s'.jobs[a], s'.jobs[b]) {
      assert Apart(s.jobs[a], s.jobs[b]);
    }
  }

  lemma BeginStaysSafe(s: State, ns: string, id: string, version: string)
    requires Safe(s) && Unclaimed(s, id, version)
    ensures Safe(Step(s, Begin(ns, id, version)))
  {
    assert BoxOk(s.db, s.artifacts, id);
    var s' := Step(s, Begin(ns, id, version));
    forall a, b | 0 <= a < b < |s'.jobs| ensures Apart(s'.jobs[a], s'.jobs[b]) {
      if b < |s.jobs| { assert Apart(s.jobs[a], s.jobs[b]); } else { assert !Claims(s.jobs[a], (id, version)); }
    }
  }

  lemma BoxesStaySafe(s: State, s': State)
    requires Safe(s) && s' == s.(db := s'.db) && s'.db.bundles == s.db.bundles
    requires forall id :: id in s.db.boxes ==>
               id in s'.db.boxes && s'.db.boxes[id].ns == s.db.boxes[id].ns && s'.db.boxes[id].current == s.db.boxes[id].current
    requires forall id :: BoxOk(s.db, s.artifacts, id) ==> BoxOk(s'.db, s.artifacts, id)
    ensures Safe(s')
  {
    forall i | 0 <= i < |s.jobs| ensures JobSafe(s'.db, s.artifacts, s'.jobs[i]) {
      assert JobSafe(s.db, s.artifacts, s.jobs[i]);
    }
    assert forall i :: 0 <= i < |s.jobs| ==> s'.jobs[i] == s.jobs[i];
  }

  lemma StepStaysSafe(s: State, a: Action)
    requires Safe(s) && (a.Begin? ==> Unclaimed(s, a.id, a.version))
    ensures Safe(Step(s, a))
  {
    match a
    case Do(j, w) => if j < |s.jobs| { WorkStaysSafe(s, j, w); }
    case Begin(ns, id, version) => BeginStaysSafe(s, ns, id, version);
    case Create(_, _, _, _, _, _) => BoxesStaySafe(s, Step(s, a));
    case Archive(_, _, _) => BoxesStaySafe(s, Step(s, a));
    case Bus(_) =>
  }

  lemma {:induction false} RunStaysSafe(s: State, actions: seq<Action>)
    requires Safe(s) && UnclaimedVersions(s, actions)
    ensures Safe(After(s, actions))
  {
    if actions != [] {
      RunStaysSafe(s, actions[..|actions| - 1]);
      StepStaysSafe(After(s, actions[..|actions| - 1]), actions[|actions| - 1]);
    }
  }

  /** Fresh versions are unclaimed, so what holds here holds of the calls that draw them. */
  lemma FreshIsUnclaimed(s: State, id: string, version: string)
    requires Inv(s) && Fresh(s, id, version)
    ensures Safe(s) && Unclaimed(s, id, version)
  {
    assert BoxOk(s.db, s.artifacts, id);
    assert (id, version) !in s.db.bundles;
    forall i | 0 <= i < |s.jobs| ensures JobSafe(s.db, s.artifacts, s.jobs[i]) {
      assert BoxOk(s.db, s.artifacts, s.jobs[i].box);
    }
  }

  // ----- claimed versions are not safe -----

  lemma {:induction false} NoBegins(s: State, actions: seq<Action>)
    requires forall i :: 0 <= i < |actions| ==> !actions[i].Begin?
    ensures UnclaimedVersions(s, actions)
  {
    if actions != [] { NoBegins(s, actions[..|actions| - 1]); }
  }

  /** Two calls with one key: j on its way to make it current, r about to start over. */
  ghost predicate Rivals(s: State, j: nat, r: nat) {
    && j < |s.jobs| && r < |s.jobs| && j != r
    && s.jobs[r].at.Looked? && s.jobs[j].Key() == s.jobs[r].Key() && s.jobs[j].version != ""
    && Owned(s.db, s.jobs[j].ns, s.jobs[j].box)
    && (s.jobs[j].at.Uploaded? ==> s.jobs[j].at.hash in s.artifacts)
  }

  lemma RivalMoves(s: State, j: nat, r: nat)
    requires Rivals(s, j, r) && Active(s.jobs[j].at)
    ensures var k, s' := s.jobs[j], Step(s, Do(j, Onward(s.jobs[j].at)));
            && Rivals(s', j, r) && StagesLeft(s'.jobs[j].at) == StagesLeft(k.at) - 1 && s'.jobs[j].Key() == k.Key()
            && if k.at.Recorded? then s'.db.boxes[k.box].current == k.version else Active(s'.jobs[j].at)
  {}

  lemma RivalMarks(s: State, r: nat)
    requires r < |s.jobs| && s.jobs[r].at.Looked? && s.jobs[r].version != ""
    requires s.jobs[r].box in s.db.boxes && s.db.boxes[s.jobs[r].box].current == s.jobs[r].version
    ensures !AllShown(Step(s, Do(r, Mark(0))))
  {
    var s' := Step(s, Do(r, Mark(0)));
    assert !BoxOk(s'.db, s'.artifacts, s.jobs[r].box);
  }

  lemma MarksAtOnce(s: State, r: nat) returns (more: seq<Action>)
    requires r < |s.jobs| && s.jobs[r].at.Looked? && s.jobs[r].version != ""
    requires s.jobs[r].box in s.db.boxes && s.db.boxes[s.jobs[r].box].current == s.jobs[r].version
    ensures !AllShown(After(s, more)) && forall i :: 0 <= i < |more| ==> !more[i].Begin?
  {
    RivalMarks(s, r);
    more := [Do(r, Mark(0))];
    assert more[..0] == [];
  }

  lemma {:induction false} RivalRun(s: State, j: nat, r: nat) returns (more: seq<Action>)
    requires Rivals(s, j, r) && Active(s.jobs[j].at)
    ensures !AllShown(After(s, more)) && forall i :: 0 <= i < |more| ==> !more[i].Begin?
    decreases StagesLeft(s.jobs[j].at)
  {
    var a := Do(j, Onward(s.jobs[j].at));
    RivalMoves(s, j, r);
    var rest;
    if s.jobs[j].at.Recorded? { rest := MarksAtOnce(Step(s, a), r); } else { rest := RivalRun(Step(s, a), j, r); }
    AfterCons(s, a, rest);
    more := [a] + rest;
  }

  /** After a call has begun with version v, every box goes on showing a built bundle in every
      continuation, if and only if v was unclaimed: not the current version of the box, nor that of
      a call under way that has still to make it current. */
  lemma ReuseIsSafeIff(s: State, ns: string, id: string, version: string)
    requires Safe(s) && Owned(s.db, ns, id) && !s.db.boxes[id].state.Archived? && version != ""
    ensures var s' := Step(s, Begin(ns, id, version));
            (forall more :: UnclaimedVersions(s', more) ==> AllShown(After(s', more))) <==> Unclaimed(s, id, version)
  {
    var s' := Step(s, Begin(ns, id, version));
    if Unclaimed(s, id, version) {
      BeginStaysSafe(s, ns, id, version);
      forall more | UnclaimedVersions(s', more) ensures AllShown(After(s', more)) { RunStaysSafe(s', more); }
    } else {
      var r, more := |s.jobs|, [];
      if s.db.boxes[id].current == version {
        more := MarksAtOnce(s', r);
      } else {
        var j :| 0 <= j < |s.jobs| && Claims(s.jobs[j], (id, version));
        assert s'.jobs[j] == s.jobs[j] && JobSafe(s.db, s.artifacts, s.jobs[j]);
        more := RivalRun(s', j, r);
      }
      NoBegins(s', more);
    }
  }

  /** From the start: as long as every call's version is unclaimed, every box shows a built bundle. */
  lemma UnclaimedVersionsAreSafe(actions: seq<Action>)
    requires UnclaimedVersions(Initial(), actions)
    ensures Safe(After(Initial(), actions))
  {
    RunStaysSafe(Initial(), actions);
  }

  /** The first moment: right after the call has marked its row, the box still shows its bundle if and
      only if the version was not the current one. */
  lemma RightAfterMarking(s: State, ns: string, id: string, version: string, now: int)
    requires Safe(s) && Owned(s.db, ns, id) && !s.db.boxes[id].state.Archived? && s.db.boxes[id].current != ""
    ensures var s' := Step(Step(s, Begin(ns, id, version)), Do(|s.jobs|, Mark(now)));
            Good(s'.db, s'.artifacts, (id, s'.db.boxes[id].current)) <==> version != s.db.boxes[id].current
  {
    assert BoxOk(s.db, s.artifacts, id);
  }
}
