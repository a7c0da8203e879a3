/**
 The storage and sandbox caps over sequential runs: calls one after the other, with a
 clock that does not go back, each behind its gate (relay/internal/box/service.go,
 box/quota.go). A publish may stop anywhere, and completing it restamps its row.
 */
module Caps {
  import opened Calendar
  import opened BoxTables
  import opened TurnTable
  import opened Quota
  import opened Publishing

  datatype Call =
    | NewBox(ns: string, id: string, device: string, title: string, runtime: string)
    | ArchiveBox(ns: string, id: string)
    | PublishBox(ns: string, id: string, version: string, works: seq<Work>)

  /** A call between two instants. */
  datatype Timed = Timed(call: Call, start: int, finish: int)

  type Plans = string -> Plan

  function Steps(j: nat, works: seq<Work>): seq<Action> {
    if works == [] then [] else Steps(j, works[..|works| - 1]) + [Do(j, works[|works| - 1])]
  }

  predicate Admitted(plans: Plans, s: State, rows: seq<Row>, ns: string, now: int, sandbox: bool) {
    var u := UsedBy(s.db, rows, ns, now);
    u.Some? && if sandbox then CheckSandbox(u.value, plans(ns)).allowed else CheckStorage(u.value, plans(ns)).allowed
  }

  function Perform(plans: Plans, s: State, rows: seq<Row>, t: Timed): State {
    match t.call
    case NewBox(ns, id, device, title, runtime) =>
      if Admitted(plans, s, rows, ns, t.start, false)
      then Step(s, Create(ns, id, device, title, runtime, Millis(t.start))) else s
    case ArchiveBox(ns, id) => Step(s, Archive(ns, id, Millis(t.start)))
    case PublishBox(ns, id, version, works) =>
      if Admitted(plans, s, rows, ns, t.start, true)
      then After(Step(s, Begin(ns, id, version)), Steps(|s.jobs|, works)) else s
  }

  function Run(plans: Plans, rows: seq<Row>, calls: seq<Timed>): State {
    if calls == [] then Initial()
    else Perform(plans, Run(plans, rows, calls[..|calls| - 1]), rows, calls[|calls| - 1])
  }

  /** One call finishes before the next begins. */
  ghost predicate OneAfterAnother(calls: seq<Timed>) {
    && (forall i :: 0 <= i < |calls| ==> calls[i].start <= calls[i].finish)
    && (forall i, j :: 0 <= i < j < |calls| ==> calls[i].finish <= calls[j].start)
  }

  // ----- what a publish does to the counts -----

  /** The box table keeps its boxes, owners and archived flags; only row `key` may change. */
  ghost predicate OnlyKey(db: Db, db': Db, key: (string, string)) {
    && db'.boxes.Keys == db.boxes.Keys
    && (forall id :: id in db.boxes ==>
          db'.boxes[id].ns == db.boxes[id].ns && (db'.boxes[id].state.Archived? <==> db.boxes[id].state.Archived?))
    && (forall k :: k in db'.bundles && k != key ==> k in db.bundles && db'.bundles[k] == db.bundles[k])
  }

  ghost predicate Open(s: State, j: nat, key: (string, string)) {
    j < |s.jobs| && s.jobs[j].Key() == key && s.jobs[j].box in s.db.boxes && !s.db.boxes[s.jobs[j].box].state.Archived?
  }

  lemma OneWork(s: State, j: nat, w: Work, key: (string, string))
    requires Open(s, j, key)
    ensures Open(Step(s, Do(j, w)), j, key) && OnlyKey(s.db, Step(s, Do(j, w)).db, key)
  {}

  lemma {:induction false} WorksTouchOneRow(s: State, j: nat, works: seq<Work>, key: (string, string))
    requires Open(s, j, key)
    ensures Open(After(s, Steps(j, works)), j, key) && OnlyKey(s.db, After(s, Steps(j, works)).db, key)
  {
    if works != [] {
      var init, w := works[..|works| - 1], works[|works| - 1];
      WorksTouchOneRow(s, j, init, key);
      OneWork(After(s, Steps(j, init)), j, w, key);
      assert Steps(j, works)[..|Steps(j, init)|] == Steps(j, init);
    }
  }

  /** A publish never changes which boxes are active, and its namespace counts at most one run more. */
  lemma PublishCounts(db: Db, db': Db, key: (string, string), ns: string, since: int, since': int)
    requires OnlyKey(db, db', key) && since <= since'
    ensures ActiveBoxes(db', ns) == ActiveBoxes(db, ns)
    ensures RunsSince(db', ns, since') <= RunsSince(db, ns, since) + (if Owned(db, ns, key.0) then {key} else {})
    ensures |RunsSince(db', ns, since')| <= |RunsSince(db, ns, since)| + (if Owned(db, ns, key.0) then 1 else 0)
  {
    var extra := if Owned(db, ns, key.0) then {key} else {};
    assert RunsSince(db', ns, since') <= RunsSince(db, ns, since) + extra;
    SubsetSize(RunsSince(db', ns, since'), RunsSince(db, ns, since) + extra);
  }

  lemma SubsetSize<T>(a: set<T>, b: set<T>)
    requires a <= b
    ensures |a| <= |b|
  {
    assert b == a + (b - a);
  }

  // ----- the caps -----

  predicate Under(cap: int, n: int) { cap >= 0 ==> n <= cap }

  predicate WithinCaps(plan: Plan, db: Db, ns: string, now: int) {
    Under(plan.activeBoxes, |ActiveBoxes(db, ns)|) && Under(plan.runsPerMonth, Runs(db, ns, now))
  }

  /** Time alone only lowers the counts of the current month. */
  lemma LaterIsFewer(db: Db, ns: string, now: int, later: int)
    requires now <= later
    ensures Runs(db, ns, later) <= Runs(db, ns, now)
  {
    MonthsAreMonotone(now, later);
    SubsetSize(RunsSince(db, ns, Millis(StartOfMonth(later))), RunsSince(db, ns, Millis(StartOfMonth(now))));
  }

  ghost predicate RowsHaveBoxes(db: Db) { forall key :: key in db.bundles ==> key.0 in db.boxes }

  lemma CreateCounts(db: Db, id: string, b: Box, ns: string, since: int)
    requires RowsHaveBoxes(db) && id !in db.boxes
    ensures var db' := Db(db.boxes[id := b], db.bundles);
            && |ActiveBoxes(db', ns)| <= |ActiveBoxes(db, ns)| + (if b.ns == ns then 1 else 0)
            && RunsSince(db', ns, since) == RunsSince(db, ns, since)
  {
    var db', extra := Db(db.boxes[id := b], db.bundles), if b.ns == ns then {id} else {};
    SubsetSize(ActiveBoxes(db', ns), ActiveBoxes(db, ns) + extra);
  }

  lemma ArchiveCounts(db: Db, owner: string, id: string, now: int, ns: string, since: int)
    ensures var db' := WithState(db, owner, id, Archived, now);
            && |ActiveBoxes(db', ns)| <= |ActiveBoxes(db, ns)|
            && RunsSince(db', ns, since) == RunsSince(db, ns, since)
  {
    SubsetSize(ActiveBoxes(WithState(db, owner, id, Archived, now), ns), ActiveBoxes(db, ns));
  }

  /** A gate that admits has a slot to give. */
  lemma AdmittedHasRoom(plans: Plans, s: State, rows: seq<Row>, ns: string, now: int)
    ensures Admitted(plans, s, rows, ns, now, false) ==> Under(plans(ns).activeBoxes, |ActiveBoxes(s.db, ns)| + 1)
    ensures Admitted(plans, s, rows, ns, now, true) ==> Under(plans(ns).runsPerMonth, Runs(s.db, ns, now) + 1)
  {}

  ghost predicate Capped(plans: Plans, db: Db, now: int) {
    RowsHaveBoxes(db) && forall ns :: WithinCaps(plans(ns), db, ns, now)
  }

  lemma RoomForOne(plans: Plans, db: Db, id: string, b: Box, now: int)
    requires Capped(plans, db, now) && id !in db.boxes && Under(plans(b.ns).activeBoxes, |ActiveBoxes(db, b.ns)| + 1)
    ensures Capped(plans, Db(db.boxes[id := b], db.bundles), now)
  {
    forall ns ensures WithinCaps(plans(ns), Db(db.boxes[id := b], db.bundles), ns, now) {
      assert WithinCaps(plans(ns), db, ns, now);
      CreateCounts(db, id, b, ns, Millis(StartOfMonth(now)));
    }
  }

  lemma NewBoxKeepsCaps(plans: Plans, s: State, rows: seq<Row>, c: Call, now: int)
    requires c.NewBox? && Capped(plans, s.db, now) && Admitted(plans, s, rows, c.ns, now, false)
    ensures Capped(plans, Step(s, Create(c.ns, c.id, c.device, c.title, c.runtime, Millis(now))).db, now)
  {
    AdmittedHasRoom(plans, s, rows, c.ns, now);
    if c.id !in s.db.boxes {
      RoomForOne(plans, s.db, c.id, Box(c.ns, c.device, c.title, c.runtime, Draft, "", Millis(now), Millis(now)), now);
    }
  }

  lemma ArchiveKeepsCaps(plans: Plans, s: State, c: Call, now: int)
    requires c.ArchiveBox? && Capped(plans, s.db, now)
    ensures Capped(plans, Step(s, Archive(c.ns, c.id, Millis(now))).db, now)
  {
    var db' := WithState(s.db, c.ns, c.id, Archived, Millis(now));
    forall ns ensures WithinCaps(plans(ns), db', ns, now) {
      assert WithinCaps(plans(ns), s.db, ns, now);
      ArchiveCounts(s.db, c.ns, c.id, Millis(now), ns, Millis(StartOfMonth(now)));
    }
  }

  /** A refused call adds nothing, and later no more rows count. */
  lemma RefusedKeepsCaps(plans: Plans, s: State, works: seq<Work>, start: int, finish: int)
    requires start <= finish && Capped(plans, s.db, start)
    ensures Capped(plans, After(s, Steps(|s.jobs|, works)).db, finish)
  {
    RefusedWorks(s, works);
    MonthsAreMonotone(start, finish);
    forall ns ensures WithinCaps(plans(ns), s.db, ns, finish) {
      assert WithinCaps(plans(ns), s.db, ns, start);
      LaterIsFewer(s.db, ns, start, finish);
    }
  }

  lemma PublishKeepsCaps(plans: Plans, s: State, rows: seq<Row>, t: Timed)
    requires t.call.PublishBox? && t.start <= t.finish && Capped(plans, s.db, t.start)
    requires Admitted(plans, s, rows, t.call.ns, t.start, true)
    ensures Capped(plans, Perform(plans, s, rows, t).db, t.finish)
  {
    var c := t.call;
    var s1 := Step(s, Begin(c.ns, c.id, c.version));
    if s1 == s {
      RefusedKeepsCaps(plans, s, c.works, t.start, t.finish);
    } else {
      var db' := After(s1, Steps(|s.jobs|, c.works)).db;
      AdmittedHasRoom(plans, s, rows, c.ns, t.start);
      MonthsAreMonotone(t.start, t.finish);
      WorksTouchOneRow(s1, |s.jobs|, c.works, (c.id, c.version));
      forall ns ensures WithinCaps(plans(ns), db', ns, t.finish) {
        assert WithinCaps(plans(ns), s.db, ns, t.start);
        PublishCounts(s.db, db', (c.id, c.version), ns, Millis(StartOfMonth(t.start)), Millis(StartOfMonth(t.finish)));
      }
    }
  }

  /** A call the lookup refused has no job, so nothing more happens. */
  lemma {:induction false} RefusedWorks(s: State, works: seq<Work>)
    ensures After(s, Steps(|s.jobs|, works)) == s
  {
    if works != [] {
      var init := works[..|works| - 1];
      RefusedWorks(s, init);
      assert Steps(|s.jobs|, works)[..|Steps(|s.jobs|, init)|] == Steps(|s.jobs|, init);
    }
  }

  lemma LaterKeepsCaps(plans: Plans, db: Db, now: int, later: int)
    requires Capped(plans, db, now) && now <= later
    ensures Capped(plans, db, later)
  {
    forall ns ensures WithinCaps(plans(ns), db, ns, later) {
      assert WithinCaps(plans(ns), db, ns, now);
      LaterIsFewer(db, ns, now, later);
    }
  }

  lemma CallKeepsCaps(plans: Plans, s: State, rows: seq<Row>, t: Timed)
    requires t.start <= t.finish && Capped(plans, s.db, t.start)
    ensures Capped(plans, Perform(plans, s, rows, t).db, t.finish)
  {
    match t.call
    case NewBox(ns, _, _, _, _) =>
      if Admitted(plans, s, rows, ns, t.start, false) { NewBoxKeepsCaps(plans, s, rows, t.call, t.start); }
      LaterKeepsCaps(plans, Perform(plans, s, rows, t).db, t.start, t.finish);
    case ArchiveBox(_, _) =>
      ArchiveKeepsCaps(plans, s, t.call, t.start);
      LaterKeepsCaps(plans, Perform(plans, s, rows, t).db, t.start, t.finish);
    case PublishBox(ns, _, _, _) =>
      if Admitted(plans, s, rows, ns, t.start, true) {
        PublishKeepsCaps(plans, s, rows, t);
      } else {
        LaterKeepsCaps(plans, s.db, t.start, t.finish);
      }
  }

  /** In every sequential run, at every instant after it, no namespace has more active boxes
      than its plan allows, nor more bundle rows counted in the current month, whatever moment
      each publish stopped at and whichever month its row was last stamped in. */
  lemma {:induction false} SequentialCaps(plans: Plans, rows: seq<Row>, calls: seq<Timed>, now: int)
    requires OneAfterAnother(calls) && (calls != [] ==> calls[|calls| - 1].finish <= now)
    ensures Capped(plans, Run(plans, rows, calls).db, now)
  {
    if calls == [] {
      forall ns ensures WithinCaps(plans(ns), Initial().db, ns, now) {
        assert ActiveBoxes(Initial().db, ns) == {} && RunsSince(Initial().db, ns, Millis(StartOfMonth(now))) == {};
      }
    } else {
      var init, t := calls[..|calls| - 1], calls[|calls| - 1];
      SequentialCaps(plans, rows, init, t.start);
      CallKeepsCaps(plans, Run(plans, rows, init), rows, t);
      LaterKeepsCaps(plans, Run(plans, rows, calls).db, t.finish, now);
    }
  }
}
