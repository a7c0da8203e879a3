/**
 What holds of publishes over every run: a served bundle is complete, every event
 delivered names a complete bundle, and exactly when an archive is final.
 */
module PublishingTheorems {
  import opened BoxTables
  import BoxEvents
  import opened Publishing
  import opened PublishingInvariant

  /** What Service.Get shows of a box: its row and, if it names one that exists, its current bundle. */
  datatype View = View(box: Box, bundle: seq<Bundle>)

  function Shown(db: Db, id: string): View requires id in db.boxes {
    var b := db.boxes[id];
    View(b, if b.current != "" && (id, b.current) in db.bundles then [db.bundles[(id, b.current)]] else [])
  }

  lemma InitialInv()
    ensures Inv(Initial())
  {}

  /** In every reachable state a box with a current version shows exactly that bundle, built
      and uploaded, and a published box has one. */
  lemma PublishSafety(actions: seq<Action>, id: string)
    requires FreshVersions(Initial(), actions)
    requires id in After(Initial(), actions).db.boxes
    ensures var s := After(Initial(), actions); var v := Shown(s.db, id);
            && (v.box.current != "" ==> |v.bundle| == 1 && v.bundle[0].state.Succeeded? && v.bundle[0].hash in s.artifacts)
            && (v.box.state.Published? ==> v.box.current != "")
  {
    InitialInv();
    RunKeepsInv(Initial(), actions);
    assert BoxOk(After(Initial(), actions).db, After(Initial(), actions).artifacts, id);
  }

  /** Whatever happens after, a bundle row that is good once is never rewritten. */
  lemma GoodRowsAreFinal(actions: seq<Action>, more: seq<Action>, key: (string, string))
    requires FreshVersions(Initial(), actions) && FreshVersions(After(Initial(), actions), more)
    requires var s := After(Initial(), actions); Good(s.db, s.artifacts, key)
    ensures var s, s' := After(Initial(), actions), After(After(Initial(), actions), more);
            Good(s'.db, s'.artifacts, key) && s'.db.bundles[key] == s.db.bundles[key]
  {
    InitialInv();
    RunKeepsInv(Initial(), actions);
    RunKeepsInv(After(Initial(), actions), more);
  }

  /** A call of BuildAndPublish accounts for at most one bundle row, and every row has its call. */
  lemma OneRowPerPublish(actions: seq<Action>, key: (string, string))
    requires FreshVersions(Initial(), actions)
    requires key in After(Initial(), actions).db.bundles
    ensures var jobs := After(Initial(), actions).jobs;
            && (exists i :: 0 <= i < |jobs| && jobs[i].Key() == key)
            && (forall i, j :: 0 <= i < j < |jobs| ==> !(jobs[i].Key() == key && jobs[j].Key() == key))
  {
    InitialInv();
    RunKeepsInv(Initial(), actions);
  }

  // ----- delivered events -----

  lemma {:induction false} KeptWasOffered(offers: seq<BoxEvents.Offered>, e: BoxEvents.Event)
    requires e in BoxEvents.Kept(offers)
    ensures exists i :: 0 <= i < |offers| && offers[i].event == e
  {
    if offers != [] && e in BoxEvents.Kept(offers[..|offers| - 1]) {
      KeptWasOffered(offers[..|offers| - 1], e);
      var i :| 0 <= i < |offers| - 1 && offers[..|offers| - 1][i].event == e;
      assert offers[i].event == e;
    } else if offers != [] {
      assert offers[|offers| - 1].event == e;
    }
  }

  lemma {:induction false} OfferedWasPublished(bus: seq<BoxEvents.Action>, line: nat, i: nat)
    requires i < |BoxEvents.OfferedTo(bus, line)|
    ensures exists j :: 0 <= j < |bus| && bus[j].Publish? && bus[j].event == BoxEvents.OfferedTo(bus, line)[i].event
  {
    if bus != [] {
      var init := bus[..|bus| - 1];
      if i < |BoxEvents.OfferedTo(init, line)| {
        OfferedWasPublished(init, line, i);
        var j :| 0 <= j < |init| && init[j].Publish? && init[j].event == BoxEvents.OfferedTo(init, line)[i].event;
        assert bus[j] == init[j];
      } else {
        assert bus[|bus| - 1].Publish?;
      }
    }
  }

  /** Every bundle_ready a subscriber has read or can still read names a bundle that is stored,
      succeeded and uploaded, with the URI, hash and size its row has. */
  lemma DeliveredBundlesAreGood(actions: seq<Action>, line: nat, e: BoxEvents.Event)
    requires FreshVersions(Initial(), actions)
    requires var lines := BoxEvents.Run(After(Initial(), actions).bus);
             line < |lines| && (e in lines[line].consumed || e in lines[line].buffer)
    ensures var s := After(Initial(), actions); var key := (e.box, e.version);
            && Good(s.db, s.artifacts, key)
            && s.db.bundles[key].uri == e.uri && s.db.bundles[key].hash == e.hash && s.db.bundles[key].size == e.size
  {
    InitialInv();
    RunKeepsInv(Initial(), actions);
    var s := After(Initial(), actions);
    var l := BoxEvents.Run(s.bus)[line];
    BoxEvents.ConsumedPlusBuffered(s.bus, line);
    assert e in l.consumed + l.buffer;
    KeptWasOffered(BoxEvents.OfferedTo(s.bus, line), e);
    var i :| 0 <= i < |BoxEvents.OfferedTo(s.bus, line)| && BoxEvents.OfferedTo(s.bus, line)[i].event == e;
    OfferedWasPublished(s.bus, line, i);
    var j :| 0 <= j < |s.bus| && s.bus[j].Publish? && s.bus[j].event == e;
    assert NoticeOk(s.db, s.artifacts, s.bus[j]);
  }

  // ----- when an archive is final -----

  predicate IsArchived(s: State, id: string) { id in s.db.boxes && s.db.boxes[id].state.Archived? }

  /** A call that found the box unpublished and has still to flip its state. */
  predicate WillFlip(k: Job, id: string) {
    k.box == id && !k.seen.Published? && !k.at.Flipped? && !k.at.Ended?
  }

  predicate Threatened(s: State, id: string) { exists j :: 0 <= j < |s.jobs| && WillFlip(s.jobs[j], id) }

  lemma {:induction false} QuietArchiveStays(s: State, actions: seq<Action>, id: string)
    requires IsArchived(s, id) && !Threatened(s, id)
    ensures IsArchived(After(s, actions), id) && !Threatened(After(s, actions), id)
  {
    if actions != [] {
      QuietArchiveStays(s, actions[..|actions| - 1], id);
      QuietStep(After(s, actions[..|actions| - 1]), actions[|actions| - 1], id);
    }
  }

  lemma QuietStep(s: State, a: Action, id: string)
    requires IsArchived(s, id) && !Threatened(s, id)
    ensures IsArchived(Step(s, a), id) && !Threatened(Step(s, a), id)
  {
    var s' := Step(s, a);
    if a.Do? && a.job < |s.jobs| {
      assert !WillFlip(s.jobs[a.job], id);
    }
    forall j | 0 <= j < |s'.jobs| ensures !WillFlip(s'.jobs[j], id) {
      if j < |s.jobs| { assert !WillFlip(s.jobs[j], id); }
    }
  }

  lemma {:induction false} AfterCons(s: State, a: Action, actions: seq<Action>)
    ensures After(s, [a] + actions) == After(Step(s, a), actions)
  {
    if actions == [] {
      assert [a] + actions == [a];
    } else {
      AfterCons(s, a, actions[..|actions| - 1]);
      assert ([a] + actions)[..|actions|] == [a] + actions[..|actions| - 1];
    }
  }

  function StagesLeft(at: Stage): nat {
    match at
    case Looked => 6 case Marked => 5 case Built(_, _) => 4 case Uploaded(_, _) => 3
    case Recorded(_) => 2 case Pointed(_) => 1 case Flipped(_) => 0 case Ended => 0
  }

  function Onward(at: Stage): Work {
    match at
    case Looked => Mark(0) case Marked => Build("", 0) case Built(_, _) => Upload case Uploaded(_, _) => Record("", "", 0, 0)
    case Recorded(_) => Point(0) case Pointed(_) => Flip(0) case Flipped(_) => Announce case Ended => Stop
  }

  lemma OneStageOn(s: State, j: nat, id: string)
    requires Inv(s) && IsArchived(s, id) && j < |s.jobs| && WillFlip(s.jobs[j], id)
    ensures var k, s' := s.jobs[j], Step(s, Do(j, Onward(s.jobs[j].at)));
            if k.at.Pointed? then !IsArchived(s', id)
            else IsArchived(s', id) && WillFlip(s'.jobs[j], id) && StagesLeft(s'.jobs[j].at) == StagesLeft(k.at) - 1
  {
    assert JobOk(s.db, s.artifacts, s.jobs[j]);
  }

  /** A threatened archive can be undone: the run that does it. */
  lemma {:induction false} UndoingRun(s: State, j: nat, id: string) returns (actions: seq<Action>)
    requires Inv(s) && IsArchived(s, id) && j < |s.jobs| && WillFlip(s.jobs[j], id)
    ensures !IsArchived(After(s, actions), id) && |actions| == StagesLeft(s.jobs[j].at)
    decreases StagesLeft(s.jobs[j].at)
  {
    var a := Do(j, Onward(s.jobs[j].at));
    OneStageOn(s, j, id);
    WorkKeepsInv(s, j, Onward(s.jobs[j].at));
    var rest := [];
    if !s.jobs[j].at.Pointed? { rest := UndoingRun(Step(s, a), j, id); }
    AfterCons(s, a, rest);
    actions := [a] + rest;
  }

  /** Once a box is archived it stays archived in every continuation exactly when no call is
      under way that found it unpublished and has not flipped its state yet. */
  lemma ArchiveIsFinalIff(before: seq<Action>, id: string)
    requires FreshVersions(Initial(), before) && IsArchived(After(Initial(), before), id)
    ensures (forall actions :: IsArchived(After(After(Initial(), before), actions), id))
            <==> !Threatened(After(Initial(), before), id)
  {
    var s := After(Initial(), before);
    InitialInv();
    RunKeepsInv(Initial(), before);
    if Threatened(s, id) {
      var j :| 0 <= j < |s.jobs| && WillFlip(s.jobs[j], id);
      var actions := UndoingRun(s, j, id);
      assert !IsArchived(After(s, actions), id);
    } else {
      forall actions ensures IsArchived(After(s, actions), id) { QuietArchiveStays(s, actions, id); }
    }
  }
}
