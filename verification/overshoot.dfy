/**
 The storage and sandbox gates under concurrent calls (relay/internal/box/quota.go,
 box/service.go): a call is admitted on what the tables hold and acts on them later,
 while others do the same, publishes run on and time passes.
 */
module Overshoot {
  import opened Calendar
  import opened BoxTables
  import opened TurnTable
  import opened Quota
  import opened Publishing
  import opened Caps

  /** A call the gate has let through and that has not acted yet. */
  datatype Ticket = Ticket(ns: string, sandbox: bool)

  /** `since` is the start of the current month, in milliseconds. */
  datatype Office = Office(s: State, now: int, since: int, tickets: multiset<Ticket>)

  datatype Event =
    | Ask(ns: string, sandbox: bool)
    | MakeBox(ns: string, id: string, device: string, title: string, runtime: string)
    | StartPublish(ns: string, id: string, version: string)
    | GiveUp(ticket: Ticket)
    | Other(a: Action)
    | Wait(until: int)

  function Since(now: int): int { Millis(StartOfMonth(now)) }

  function Live(jobs: seq<Job>): nat {
    if jobs == [] then 0 else Live(jobs[..|jobs| - 1]) + if jobs[|jobs| - 1].at.Ended? then 0 else 1
  }

  /** Calls of Create and BuildAndPublish under way past their gate. */
  function InFlight(o: Office): nat { |o.tickets| + Live(o.s.jobs) }

  function Used(o: Office, t: Ticket, s: State): Office { o.(s := s, tickets := o.tickets - multiset{t}) }

  /** At most k calls are in flight at a time. */
  function Turn(plans: Plans, rows: seq<Row>, k: nat, o: Office, e: Event): Office {
    match e
    case Ask(ns, sandbox) =>
      if InFlight(o) < k && Admitted(plans, o.s, rows, ns, o.now, sandbox)
      then o.(tickets := o.tickets + multiset{Ticket(ns, sandbox)}) else o
    case MakeBox(ns, id, device, title, runtime) =>
      if Ticket(ns, false) in o.tickets
      then Used(o, Ticket(ns, false), Step(o.s, Create(ns, id, device, title, runtime, Millis(o.now)))) else o
    case StartPublish(ns, id, version) =>
      if Ticket(ns, true) in o.tickets then Used(o, Ticket(ns, true), Step(o.s, Begin(ns, id, version))) else o
    case GiveUp(t) => if t in o.tickets then Used(o, t, o.s) else o
    case Other(a) => if a.Create? || a.Begin? then o else o.(s := Step(o.s, a))
    case Wait(until) => if until > o.now then o.(now := until, since := Since(until)) else o
  }

  function Day(plans: Plans, rows: seq<Row>, k: nat, start: int, events: seq<Event>): Office {
    if events == [] then Office(Initial(), start, Since(start), multiset{})
    else Turn(plans, rows, k, Day(plans, rows, k, start, events[..|events| - 1]), events[|events| - 1])
  }

  // ----- what the calls in flight can still add -----

  /** The job may still reopen a box that was archived meanwhile. */
  predicate Reopens(k: Job) { !k.seen.Published? && !k.at.Flipped? && !k.at.Ended? }

  /** The job may still write its row. */
  predicate Puts(k: Job) { k.at.Looked? || k.at.Marked? || k.at.Built? || k.at.Uploaded? }

  function Reopening(jobs: seq<Job>, ns: string): set<string> {
    if jobs == [] then {}
    else
      var k := jobs[|jobs| - 1];
      Reopening(jobs[..|jobs| - 1], ns) + if k.ns == ns && Reopens(k) then {k.box} else {}
  }

  function Putting(jobs: seq<Job>, ns: string): set<(string, string)> {
    if jobs == [] then {}
    else
      var k := jobs[|jobs| - 1];
      Putting(jobs[..|jobs| - 1], ns) + if k.ns == ns && Puts(k) then {k.Key()} else {}
  }

  function Boxes(o: Office, ns: string): nat {
    |ActiveBoxes(o.s.db, ns) + Reopening(o.s.jobs, ns)| + o.tickets[Ticket(ns, false)]
  }

  function Builds(o: Office, ns: string): nat {
    |RunsSince(o.s.db, ns, o.since) + Putting(o.s.jobs, ns)| + o.tickets[Ticket(ns, true)]
  }

  lemma FewWait(tickets: multiset<Ticket>, t: Ticket)
    ensures tickets[t] <= |tickets|
  {
    assert |tickets[t := 0]| == |tickets| - tickets[t];
  }

  lemma {:induction false} FewJobs(jobs: seq<Job>, ns: string)
    ensures |Reopening(jobs, ns)| <= Live(jobs) && |Putting(jobs, ns)| <= Live(jobs)
  {
    if jobs != [] { FewJobs(jobs[..|jobs| - 1], ns); }
  }

  lemma UnionSize<T>(a: set<T>, b: set<T>)
    ensures |a + b| <= |a| + |b|
  {
    assert a + b == a + (b - a);
    SubsetSize(b - a, b);
  }

  lemma JobsMore(jobs: seq<Job>, k: Job, ns: string)
    ensures Reopening(jobs + [k], ns) == Reopening(jobs, ns) + if k.ns == ns && Reopens(k) then {k.box} else {}
    ensures Putting(jobs + [k], ns) == Putting(jobs, ns) + if k.ns == ns && Puts(k) then {k.Key()} else {}
  {
    assert (jobs + [k])[..|jobs|] == jobs;
  }

  /** A job that moves on does not begin to reopen or to write again. */
  lemma {:induction false} JobMoves(jobs: seq<Job>, j: nat, at: Stage, ns: string)
    requires j < |jobs| && (Reopens(jobs[j].(at := at)) ==> Reopens(jobs[j])) && (Puts(jobs[j].(at := at)) ==> Puts(jobs[j]))
    ensures var k := jobs[j];
            && Reopening(jobs[j := k.(at := at)], ns) <= Reopening(jobs, ns)
            && Putting(jobs[j := k.(at := at)], ns) <= Putting(jobs, ns)
            && (k.ns == ns && Reopens(k) ==> k.box in Reopening(jobs, ns))
            && (k.ns == ns && Puts(k) ==> k.Key() in Putting(jobs, ns))
  {
    var n := |jobs| - 1;
    if j == n {
      assert jobs[j := jobs[j].(at := at)][..n] == jobs[..n];
    } else {
      JobMoves(jobs[..n], j, at, ns);
      assert jobs[j := jobs[j].(at := at)][..n] == jobs[..n][j := jobs[j].(at := at)];
    }
  }

  // ----- no step but an admission adds anything -----

  ghost predicate Tidy(s: State) {
    RowsHaveBoxes(s.db) && forall i :: 0 <= i < |s.jobs| ==> Owned(s.db, s.jobs[i].ns, s.jobs[i].box)
  }

  /** The sets only shrink. */
  ghost predicate Shrinks(s: State, since: int, s': State, since': int, ns: string) {
    && ActiveBoxes(s'.db, ns) + Reopening(s'.jobs, ns) <= ActiveBoxes(s.db, ns) + Reopening(s.jobs, ns)
    && RunsSince(s'.db, ns, since') + Putting(s'.jobs, ns) <= RunsSince(s.db, ns, since) + Putting(s.jobs, ns)
  }

  lemma WorkKeepsTidy(s: State, j: nat, w: Work)
    requires Tidy(s) && j < |s.jobs|
    ensures Tidy(Step(s, Do(j, w)))
  {
    RowsOnly(s, s.jobs[j], w, "", 0);
  }

  lemma WorkShrinks(s: State, j: nat, w: Work, ns: string, since: int)
    requires Tidy(s) && j < |s.jobs|
    ensures Shrinks(s, since, Step(s, Do(j, w)), since, ns)
  {
    var k, s' := s.jobs[j], Step(s, Do(j, w));
    JobMoves(s.jobs, j, Next(s, k, w), ns);
    RowsOnly(s, k, w, ns, since);
  }

  lemma RowsOnly(s: State, k: Job, w: Work, ns: string, since: int)
    requires RowsHaveBoxes(s.db) && Owned(s.db, k.ns, k.box)
    ensures RowsHaveBoxes(Rows(s, k, w))
    ensures forall id :: id in s.db.boxes ==> id in Rows(s, k, w).boxes && Rows(s, k, w).boxes[id].ns == s.db.boxes[id].ns
    ensures ActiveBoxes(Rows(s, k, w), ns) <= ActiveBoxes(s.db, ns) + (if k.ns == ns && Reopens(k) then {k.box} else {})
    ensures RunsSince(Rows(s, k, w), ns, since) <= RunsSince(s.db, ns, since) + (if k.ns == ns && Puts(k) then {k.Key()} else {})
  {}

  lemma ArchiveShrinks(s: State, owner: string, id: string, at: int, ns: string, since: int)
    requires Tidy(s)
    ensures Tidy(Step(s, Archive(owner, id, at))) && Shrinks(s, since, Step(s, Archive(owner, id, at)), since, ns)
  {}

  lemma BeginAdds(s: State, owner: string, id: string, version: string, ns: string, since: int)
    requires Tidy(s)
    ensures var s' := Step(s, Begin(owner, id, version));
            && Tidy(s')
            && ActiveBoxes(s'.db, ns) + Reopening(s'.jobs, ns) <= ActiveBoxes(s.db, ns) + Reopening(s.jobs, ns)
            && RunsSince(s'.db, ns, since) + Putting(s'.jobs, ns) <=
               RunsSince(s.db, ns, since) + Putting(s.jobs, ns) + (if owner == ns then {(id, version)} else {})
  {
    if Owned(s.db, owner, id) { JobsMore(s.jobs, Job(owner, id, version, s.db.boxes[id].state, Looked), ns); }
  }

  lemma CreateAdds(s: State, owner: string, id: string, device: string, title: string, runtime: string, at: int, ns: string, since: int)
    requires Tidy(s)
    ensures var s' := Step(s, Create(owner, id, device, title, runtime, at));
            && Tidy(s')
            && ActiveBoxes(s'.db, ns) + Reopening(s'.jobs, ns) <=
               ActiveBoxes(s.db, ns) + Reopening(s.jobs, ns) + (if owner == ns then {id} else {})
            && RunsSince(s'.db, ns, since) + Putting(s'.jobs, ns) <= RunsSince(s.db, ns, since) + Putting(s.jobs, ns)
  {}

  lemma TimeShrinks(s: State, now: int, later: int, ns: string)
    requires now <= later
    ensures Shrinks(s, Since(now), s, Since(later), ns)
  {
    MonthsAreMonotone(now, later);
  }

  /** Both measures of a namespace stay or fall. */
  ghost predicate NoMore(o: Office, o': Office, ns: string) {
    Boxes(o', ns) <= Boxes(o, ns) && Builds(o', ns) <= Builds(o, ns)
  }

  lemma ShrinkingIsNoMore(o: Office, o': Office, ns: string)
    requires Shrinks(o.s, o.since, o'.s, o'.since, ns) && o'.tickets <= o.tickets
    ensures NoMore(o, o', ns)
  {
    SubsetSize(ActiveBoxes(o'.s.db, ns) + Reopening(o'.s.jobs, ns), ActiveBoxes(o.s.db, ns) + Reopening(o.s.jobs, ns));
    SubsetSize(RunsSince(o'.s.db, ns, o'.since) + Putting(o'.s.jobs, ns),
               RunsSince(o.s.db, ns, o.since) + Putting(o.s.jobs, ns));
  }

  lemma OneFor<T>(a: set<T>, b: set<T>, x: set<T>)
    requires b <= a + x
    ensures |b| <= |a| + |x|
  {
    SubsetSize(b, a + x);
    UnionSize(a, x);
  }

  lemma CreateIsNoMore(o: Office, e: Event, ns: string)
    requires Tidy(o.s) && e.MakeBox? && Ticket(e.ns, false) in o.tickets
    ensures var o' := Used(o, Ticket(e.ns, false), Step(o.s, Create(e.ns, e.id, e.device, e.title, e.runtime, Millis(o.now))));
            Tidy(o'.s) && NoMore(o, o', ns)
  {
    var s, s' := o.s, Step(o.s, Create(e.ns, e.id, e.device, e.title, e.runtime, Millis(o.now)));
    CreateAdds(s, e.ns, e.id, e.device, e.title, e.runtime, Millis(o.now), ns, o.since);
    OneFor(ActiveBoxes(s.db, ns) + Reopening(s.jobs, ns), ActiveBoxes(s'.db, ns) + Reopening(s'.jobs, ns),
           if e.ns == ns then {e.id} else {});
    SubsetSize(RunsSince(s'.db, ns, o.since) + Putting(s'.jobs, ns), RunsSince(s.db, ns, o.since) + Putting(s.jobs, ns));
  }

  lemma BeginIsNoMore(o: Office, e: Event, ns: string)
    requires Tidy(o.s) && e.StartPublish? && Ticket(e.ns, true) in o.tickets
    ensures var o' := Used(o, Ticket(e.ns, true), Step(o.s, Begin(e.ns, e.id, e.version)));
            Tidy(o'.s) && NoMore(o, o', ns)
  {
    var s, s' := o.s, Step(o.s, Begin(e.ns, e.id, e.version));
    BeginAdds(s, e.ns, e.id, e.version, ns, o.since);
    OneFor(RunsSince(s.db, ns, o.since) + Putting(s.jobs, ns), RunsSince(s'.db, ns, o.since) + Putting(s'.jobs, ns),
           if e.ns == ns then {(e.id, e.version)} else {});
    SubsetSize(ActiveBoxes(s'.db, ns) + Reopening(s'.jobs, ns), ActiveBoxes(s.db, ns) + Reopening(s.jobs, ns));
  }

  lemma OtherIsNoMore(o: Office, a: Action, ns: string)
    requires Tidy(o.s) && !a.Create? && !a.Begin?
    ensures Tidy(Step(o.s, a)) && NoMore(o, o.(s := Step(o.s, a)), ns)
  {
    if a.Do? && a.job < |o.s.jobs| {
      WorkKeepsTidy(o.s, a.job, a.work);
      WorkShrinks(o.s, a.job, a.work, ns, o.since);
    } else if a.Archive? {
      ArchiveShrinks(o.s, a.ns, a.id, a.now, ns, o.since);
    }
    ShrinkingIsNoMore(o, o.(s := Step(o.s, a)), ns);
  }

  // ----- admissions -----

  /** How far a namespace can get: not at all with a cap of zero, else k - 1 past its cap. */
  function Bound(cap: int, k: nat): int { if cap == 0 then 0 else cap - 1 + k }

  ghost predicate WithinBounds(plans: Plans, k: nat, o: Office, ns: string) {
    && (plans(ns).activeBoxes >= 0 ==> Boxes(o, ns) <= Bound(plans(ns).activeBoxes, k))
    && (plans(ns).runsPerMonth >= 0 ==> Builds(o, ns) <= Bound(plans(ns).runsPerMonth, k))
  }

  lemma MeasuresAreSmall(o: Office, ns: string)
    ensures Boxes(o, ns) <= |ActiveBoxes(o.s.db, ns)| + InFlight(o)
    ensures Builds(o, ns) <= |RunsSince(o.s.db, ns, o.since)| + InFlight(o)
  {
    FewJobs(o.s.jobs, ns);
    FewWait(o.tickets, Ticket(ns, false));
    FewWait(o.tickets, Ticket(ns, true));
    UnionSize(ActiveBoxes(o.s.db, ns), Reopening(o.s.jobs, ns));
    UnionSize(RunsSince(o.s.db, ns, o.since), Putting(o.s.jobs, ns));
  }

  /** A gate admits only below its cap, so a measure that just grew is within the bound. */
  lemma AdmissionIsBounded(plans: Plans, rows: seq<Row>, k: nat, o: Office, asked: string, sandbox: bool, ns: string)
    requires WithinBounds(plans, k, o, ns) && o.since == Since(o.now) && InFlight(o) < k && Admitted(plans, o.s, rows, asked, o.now, sandbox)
    ensures WithinBounds(plans, k, o.(tickets := o.tickets + multiset{Ticket(asked, sandbox)}), ns)
  {
    var o' := o.(tickets := o.tickets + multiset{Ticket(asked, sandbox)});
    AdmittedHasRoom(plans, o.s, rows, asked, o.now);
    MeasuresAreSmall(o', ns);
    assert InFlight(o') == InFlight(o) + 1;
    assert sandbox ==> Boxes(o', ns) == Boxes(o, ns);
    assert !sandbox ==> Builds(o', ns) == Builds(o, ns);
    assert asked != ns ==> Boxes(o', ns) == Boxes(o, ns) && Builds(o', ns) == Builds(o, ns);
  }

  lemma WaitIsNoMore(o: Office, until: int, ns: string)
    requires o.since == Since(o.now) && until > o.now
    ensures NoMore(o, o.(now := until, since := Since(until)), ns)
  {
    TimeShrinks(o.s, o.now, until, ns);
    ShrinkingIsNoMore(o, o.(now := until, since := Since(until)), ns);
  }

  lemma TurnIsNoMore(plans: Plans, rows: seq<Row>, k: nat, o: Office, e: Event, ns: string)
    requires Tidy(o.s) && o.since == Since(o.now) && !e.Ask?
    ensures Tidy(Turn(plans, rows, k, o, e).s) && NoMore(o, Turn(plans, rows, k, o, e), ns)
  {
    match e
    case MakeBox(owner, _, _, _, _) => if Ticket(owner, false) in o.tickets { CreateIsNoMore(o, e, ns); }
    case StartPublish(owner, _, _) => if Ticket(owner, true) in o.tickets { BeginIsNoMore(o, e, ns); }
    case GiveUp(t) => if t in o.tickets { ShrinkingIsNoMore(o, Used(o, t, o.s), ns); }
    case Other(a) => if !a.Create? && !a.Begin? { OtherIsNoMore(o, a, ns); }
    case Wait(until) => if until > o.now { WaitIsNoMore(o, until, ns); }
  }

  lemma TurnKeepsMonth(plans: Plans, rows: seq<Row>, k: nat, o: Office, e: Event)
    requires o.since == Since(o.now)
    ensures Turn(plans, rows, k, o, e).since == Since(Turn(plans, rows, k, o, e).now)
  {}

  ghost predicate Bounded(plans: Plans, k: nat, o: Office, ns: string) {
    Tidy(o.s) && o.since == Since(o.now) && WithinBounds(plans, k, o, ns)
  }

  lemma NoMoreKeepsBounds(plans: Plans, k: nat, o: Office, o': Office, ns: string)
    requires Bounded(plans, k, o, ns) && NoMore(o, o', ns) && Tidy(o'.s) && o'.since == Since(o'.now)
    ensures Bounded(plans, k, o', ns)
  {}

  lemma AskKeepsBounds(plans: Plans, rows: seq<Row>, k: nat, o: Office, e: Event, ns: string)
    requires Bounded(plans, k, o, ns) && e.Ask?
    ensures Bounded(plans, k, Turn(plans, rows, k, o, e), ns)
  {
    if InFlight(o) < k && Admitted(plans, o.s, rows, e.ns, o.now, e.sandbox) {
      AdmissionIsBounded(plans, rows, k, o, e.ns, e.sandbox, ns);
    }
  }

  lemma TurnKeepsBounds(plans: Plans, rows: seq<Row>, k: nat, o: Office, e: Event, ns: string)
    requires Bounded(plans, k, o, ns)
    ensures Bounded(plans, k, Turn(plans, rows, k, o, e), ns)
  {
    if e.Ask? {
      AskKeepsBounds(plans, rows, k, o, e, ns);
    } else {
      TurnIsNoMore(plans, rows, k, o, e, ns);
      TurnKeepsMonth(plans, rows, k, o, e);
      NoMoreKeepsBounds(plans, k, o, Turn(plans, rows, k, o, e), ns);
    }
  }

  lemma {:induction false} DayKeepsBounds(plans: Plans, rows: seq<Row>, k: nat, start: int, events: seq<Event>, ns: string)
    ensures Bounded(plans, k, Day(plans, rows, k, start, events), ns)
  {
    if events == [] {
      assert ActiveBoxes(Initial().db, ns) == {} && RunsSince(Initial().db, ns, Since(start)) == {};
    } else {
      DayKeepsBounds(plans, rows, k, start, events[..|events| - 1], ns);
      TurnKeepsBounds(plans, rows, k, Day(plans, rows, k, start, events[..|events| - 1]), events[|events| - 1], ns);
    }
  }

  /** In every interleaving with at most k calls in flight, a namespace never has more than
      cap - 1 + k active boxes, reopened ones included, nor that many rows counted in the current
      month, restamped ones included; and a cap of zero is never passed. */
  lemma Overshoot(plans: Plans, rows: seq<Row>, k: nat, start: int, events: seq<Event>, ns: string)
    ensures var o := Day(plans, rows, k, start, events);
            && (plans(ns).activeBoxes >= 0 ==> |ActiveBoxes(o.s.db, ns)| <= Bound(plans(ns).activeBoxes, k))
            && (plans(ns).runsPerMonth >= 0 ==> Runs(o.s.db, ns, o.now) <= Bound(plans(ns).runsPerMonth, k))
  {
    var o := Day(plans, rows, k, start, events);
    DayKeepsBounds(plans, rows, k, start, events, ns);
    SubsetSize(ActiveBoxes(o.s.db, ns), ActiveBoxes(o.s.db, ns) + Reopening(o.s.jobs, ns));
    SubsetSize(RunsSince(o.s.db, ns, o.since), RunsSince(o.s.db, ns, o.since) + Putting(o.s.jobs, ns));
  }
}
