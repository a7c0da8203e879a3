/** Runs that reach the bounds of the storage and sandbox gates. */
module OvershootTight {
  import opened Calendar
  import opened BoxTables
  import opened TurnTable
  import opened Quota
  import opened Publishing
  import opened Caps
  import opened Overshoot

  /** Distinct names. */
  function Name(i: nat): (s: string)
    ensures |s| == i
  {
    if i == 0 then "" else Name(i - 1) + "x"
  }

  lemma DaySnoc(plans: Plans, rows: seq<Row>, k: nat, start: int, events: seq<Event>, e: Event)
    ensures Day(plans, rows, k, start, events + [e]) == Turn(plans, rows, k, Day(plans, rows, k, start, events), e)
  {
    assert (events + [e])[..|events|] == events;
  }

  // ----- storage -----

  lemma RoomAdmits(plans: Plans, s: State, rows: seq<Row>, ns: string, now: int)
    requires ns != ""
    ensures |ActiveBoxes(s.db, ns)| < plans(ns).activeBoxes || plans(ns).activeBoxes < 0 ==> Admitted(plans, s, rows, ns, now, false)
    ensures Runs(s.db, ns, now) < plans(ns).runsPerMonth || plans(ns).runsPerMonth < 0 ==> Admitted(plans, s, rows, ns, now, true)
  {}

  /** n boxes of the namespace, all active and with shorter names than the next one, t calls admitted
      to make another, and nothing else. */
  ghost predicate Stored(o: Office, ns: string, n: nat, t: nat) {
    && o.s.jobs == [] && o.tickets == multiset{}[Ticket(ns, false) := t]
    && |ActiveBoxes(o.s.db, ns)| == n && forall id :: id in o.s.db.boxes ==> |id| < n
  }

  function AskBox(ns: string): Event { Ask(ns, false) }
  function MakeNext(ns: string, n: nat): Event { MakeBox(ns, Name(n), "", "", "") }

  lemma AskStored(plans: Plans, rows: seq<Row>, k: nat, o: Office, ns: string, n: nat, t: nat)
    requires Stored(o, ns, n, t) && ns != "" && n < plans(ns).activeBoxes && t < k
    ensures Stored(Turn(plans, rows, k, o, AskBox(ns)), ns, n, t + 1)
  {
    RoomAdmits(plans, o.s, rows, ns, o.now);
    assert |o.tickets| == t;
    assert o.tickets + multiset{Ticket(ns, false)} == multiset{}[Ticket(ns, false) := t + 1];
  }

  lemma MakeStored(plans: Plans, rows: seq<Row>, k: nat, o: Office, ns: string, n: nat, t: nat)
    requires Stored(o, ns, n, t) && t > 0
    ensures Stored(Turn(plans, rows, k, o, MakeNext(ns, n)), ns, n + 1, t - 1)
  {
    var o' := Turn(plans, rows, k, o, MakeNext(ns, n));
    assert o.tickets - multiset{Ticket(ns, false)} == multiset{}[Ticket(ns, false) := t - 1];
    assert ActiveBoxes(o'.s.db, ns) == ActiveBoxes(o.s.db, ns) + {Name(n)};
  }

  lemma OneAsk(plans: Plans, rows: seq<Row>, k: nat, start: int, before: seq<Event>, ns: string, n: nat, t: nat)
    returns (events: seq<Event>)
    requires Stored(Day(plans, rows, k, start, before), ns, n, t) && ns != "" && n < plans(ns).activeBoxes && t < k
    ensures Stored(Day(plans, rows, k, start, events), ns, n, t + 1)
  {
    DaySnoc(plans, rows, k, start, before, AskBox(ns));
    AskStored(plans, rows, k, Day(plans, rows, k, start, before), ns, n, t);
    events := before + [AskBox(ns)];
  }

  lemma OneBox(plans: Plans, rows: seq<Row>, k: nat, start: int, before: seq<Event>, ns: string, n: nat, t: nat)
    returns (events: seq<Event>)
    requires Stored(Day(plans, rows, k, start, before), ns, n, t) && t > 0
    ensures Stored(Day(plans, rows, k, start, events), ns, n + 1, t - 1)
  {
    DaySnoc(plans, rows, k, start, before, MakeNext(ns, n));
    MakeStored(plans, rows, k, Day(plans, rows, k, start, before), ns, n, t);
    events := before + [MakeNext(ns, n)];
  }

  lemma NothingStored(plans: Plans, rows: seq<Row>, k: nat, start: int, ns: string)
    ensures Stored(Day(plans, rows, k, start, []), ns, 0, 0)
  {
    assert ActiveBoxes(Initial().db, ns) == {};
    assert multiset{}[Ticket(ns, false) := 0] == multiset{};
  }

  lemma {:induction false} Fill(plans: Plans, rows: seq<Row>, k: nat, start: int, ns: string, n: nat)
    returns (events: seq<Event>)
    requires ns != "" && k > 0 && n < plans(ns).activeBoxes
    ensures Stored(Day(plans, rows, k, start, events), ns, n, 0)
  {
    events := [];
    if n == 0 {
      NothingStored(plans, rows, k, start, ns);
    } else {
      events := Fill(plans, rows, k, start, ns, n - 1);
      events := OneMore(plans, rows, k, start, events, ns, n - 1);
    }
  }

  lemma OneMore(plans: Plans, rows: seq<Row>, k: nat, start: int, before: seq<Event>, ns: string, n: nat)
    returns (events: seq<Event>)
    requires Stored(Day(plans, rows, k, start, before), ns, n, 0) && ns != "" && n < plans(ns).activeBoxes && k > 0
    ensures Stored(Day(plans, rows, k, start, events), ns, n + 1, 0)
  {
    events := OneAsk(plans, rows, k, start, before, ns, n, 0);
    events := OneBox(plans, rows, k, start, events, ns, n, 1);
  }

  lemma {:induction false} AskTimes(plans: Plans, rows: seq<Row>, k: nat, start: int, ns: string, n: nat, t: nat)
    returns (events: seq<Event>)
    requires ns != "" && k > 0 && t <= k && n < plans(ns).activeBoxes
    ensures Stored(Day(plans, rows, k, start, events), ns, n, t)
  {
    if t == 0 {
      events := Fill(plans, rows, k, start, ns, n);
    } else {
      events := AskTimes(plans, rows, k, start, ns, n, t - 1);
      events := OneAsk(plans, rows, k, start, events, ns, n, t - 1);
    }
  }

  lemma {:induction false} MakeTimes(plans: Plans, rows: seq<Row>, k: nat, start: int, ns: string, n: nat, j: nat)
    returns (events: seq<Event>)
    requires ns != "" && k > 0 && j <= k && n < plans(ns).activeBoxes
    ensures Stored(Day(plans, rows, k, start, events), ns, n + j, k - j)
  {
    if j == 0 {
      events := AskTimes(plans, rows, k, start, ns, n, k);
    } else {
      events := MakeTimes(plans, rows, k, start, ns, n, j - 1);
      events := OneBox(plans, rows, k, start, events, ns, n + j - 1, k - j + 1);
    }
  }

  /** k calls admitted at cap - 1 boxes: the storage cap is passed by k - 1. */
  lemma StorageOvershoots(plans: Plans, rows: seq<Row>, k: nat, start: int, ns: string) returns (events: seq<Event>)
    requires ns != "" && k > 0 && plans(ns).activeBoxes > 0
    ensures |ActiveBoxes(Day(plans, rows, k, start, events).s.db, ns)| == Bound(plans(ns).activeBoxes, k)
  {
    events := MakeTimes(plans, rows, k, start, ns, plans(ns).activeBoxes - 1, k);
  }

  // ----- sandbox -----

  /** One draft box, n rows of it counted this month and with shorter versions than the next one, t
      calls admitted to build; `idle` says that no call is past that. */
  ghost predicate Ran(o: Office, ns: string, n: nat, t: nat, idle: bool) {
    && o.tickets == multiset{}[Ticket(ns, true) := t]
    && Owned(o.s.db, ns, "") && o.s.db.boxes[""].state.Draft?
    && |RunsSince(o.s.db, ns, o.since)| == n && o.since == Since(o.now)
    && (forall key :: key in o.s.db.bundles ==> |key.1| < n)
    && (idle ==> Live(o.s.jobs) == 0)
  }

  lemma NowIsThisMonth(now: int)
    ensures Millis(now) >= Since(now)
  {
    MonthWindow(now);
  }

  lemma AskRan(plans: Plans, rows: seq<Row>, k: nat, o: Office, ns: string, n: nat, t: nat)
    requires Ran(o, ns, n, t, true) && ns != "" && n < plans(ns).runsPerMonth && t < k
    ensures Ran(Turn(plans, rows, k, o, Ask(ns, true)), ns, n, t + 1, true)
  {
    RoomAdmits(plans, o.s, rows, ns, o.now);
    assert o.tickets + multiset{Ticket(ns, true)} == multiset{}[Ticket(ns, true) := t + 1];
  }

  lemma {:induction false} LiveMore(jobs: seq<Job>, k: Job)
    ensures Live(jobs + [k]) == Live(jobs) + if k.at.Ended? then 0 else 1
  {
    assert (jobs + [k])[..|jobs|] == jobs;
  }

  /** The call's job after its lookup and after it marked its row. */
  function NewJob(ns: string, n: nat, at: Stage): Job { Job(ns, "", Name(n), Draft, at) }

  function Started(o: Office, ns: string, n: nat): Office {
    o.(s := o.s.(jobs := o.s.jobs + [NewJob(ns, n, Looked)]), tickets := o.tickets - multiset{Ticket(ns, true)})
  }

  function Running(o: Office, ns: string, n: nat, at: Stage): Office {
    Started(o, ns, n).(s := State(Db(o.s.db.boxes, o.s.db.bundles[("", Name(n)) := Bundle("", "", 0, BuildState.Running, "", Millis(o.now), 0)]),
                                  o.s.artifacts, o.s.jobs + [NewJob(ns, n, at)], o.s.bus))
  }

  lemma Starts(plans: Plans, rows: seq<Row>, k: nat, o: Office, ns: string, n: nat, t: nat, idle: bool)
    requires Ran(o, ns, n, t, idle) && t > 0
    ensures Turn(plans, rows, k, o, StartPublish(ns, "", Name(n))) == Started(o, ns, n)
  {}

  lemma Marks(plans: Plans, rows: seq<Row>, k: nat, o: Office, ns: string, n: nat)
    requires Owned(o.s.db, ns, "")
    ensures Turn(plans, rows, k, Started(o, ns, n), Other(Do(|o.s.jobs|, Mark(Millis(o.now))))) == Running(o, ns, n, Marked)
  {
    var jobs := o.s.jobs + [NewJob(ns, n, Looked)];
    assert jobs[|o.s.jobs| := NewJob(ns, n, Marked)] == o.s.jobs + [NewJob(ns, n, Marked)];
    assert o.s.bus + [] == o.s.bus;
  }

  lemma Stops(plans: Plans, rows: seq<Row>, k: nat, o: Office, ns: string, n: nat)
    ensures Turn(plans, rows, k, Running(o, ns, n, Marked), Other(Do(|o.s.jobs|, Stop))) == Running(o, ns, n, Ended)
  {
    var jobs := o.s.jobs + [NewJob(ns, n, Marked)];
    assert jobs[|o.s.jobs| := NewJob(ns, n, Ended)] == o.s.jobs + [NewJob(ns, n, Ended)];
    assert o.s.bus + [] == o.s.bus;
  }

  lemma RunningRan(o: Office, ns: string, n: nat, t: nat, idle: bool, at: Stage)
    requires Ran(o, ns, n, t, idle) && t > 0
    ensures Ran(Running(o, ns, n, at), ns, n + 1, t - 1, idle && at.Ended?)
  {
    var o' := Running(o, ns, n, at);
    NowIsThisMonth(o.now);
    LiveMore(o.s.jobs, NewJob(ns, n, at));
    assert o.tickets - multiset{Ticket(ns, true)} == multiset{}[Ticket(ns, true) := t - 1];
    assert RunsSince(o'.s.db, ns, o.since) == RunsSince(o.s.db, ns, o.since) + {("", Name(n))};
  }

  lemma OneRun(plans: Plans, rows: seq<Row>, k: nat, start: int, before: seq<Event>, ns: string, n: nat, t: nat, idle: bool)
    returns (events: seq<Event>)
    requires Ran(Day(plans, rows, k, start, before), ns, n, t, idle) && t > 0
    ensures Ran(Day(plans, rows, k, start, events), ns, n + 1, t - 1, idle)
  {
    var o := Day(plans, rows, k, start, before);
    var a, b, c := StartPublish(ns, "", Name(n)), Other(Do(|o.s.jobs|, Mark(Millis(o.now)))), Other(Do(|o.s.jobs|, Stop));
    DaySnoc(plans, rows, k, start, before, a);
    Starts(plans, rows, k, o, ns, n, t, idle);
    DaySnoc(plans, rows, k, start, before + [a], b);
    Marks(plans, rows, k, o, ns, n);
    DaySnoc(plans, rows, k, start, before + [a] + [b], c);
    Stops(plans, rows, k, o, ns, n);
    RunningRan(o, ns, n, t, idle, Ended);
    events := before + [a] + [b] + [c];
  }

  lemma OneAskRun(plans: Plans, rows: seq<Row>, k: nat, start: int, before: seq<Event>, ns: string, n: nat, t: nat)
    returns (events: seq<Event>)
    requires Ran(Day(plans, rows, k, start, before), ns, n, t, true) && ns != "" && n < plans(ns).runsPerMonth && t < k
    ensures Ran(Day(plans, rows, k, start, events), ns, n, t + 1, true)
  {
    DaySnoc(plans, rows, k, start, before, Ask(ns, true));
    AskRan(plans, rows, k, Day(plans, rows, k, start, before), ns, n, t);
    events := before + [Ask(ns, true)];
  }

  function Opening(start: int, since: int, tickets: multiset<Ticket>): Office { Office(Initial(), start, since, tickets) }

  function WithBox(ns: string, start: int, since: int): Office {
    var b := Box(ns, "", "", "", Draft, "", Millis(start), Millis(start));
    Office(State(Db(map["" := b], map[]), {}, [], []), start, since, multiset{})
  }

  lemma FirstAsk(plans: Plans, rows: seq<Row>, k: nat, start: int, since: int, ns: string)
    requires ns != "" && k > 0 && plans(ns).activeBoxes != 0
    ensures Turn(plans, rows, k, Opening(start, since, multiset{}), Ask(ns, false)) == Opening(start, since, multiset{Ticket(ns, false)})
  {
    assert ActiveBoxes(Initial().db, ns) == {};
    RoomAdmits(plans, Initial(), rows, ns, start);
  }

  lemma FirstMake(plans: Plans, rows: seq<Row>, k: nat, start: int, since: int, ns: string)
    ensures Turn(plans, rows, k, Opening(start, since, multiset{Ticket(ns, false)}), MakeBox(ns, "", "", "", "")) == WithBox(ns, start, since)
  {
    assert multiset{Ticket(ns, false)} - multiset{Ticket(ns, false)} == multiset{};
  }

  lemma FirstRan(ns: string, start: int)
    ensures Ran(WithBox(ns, start, Since(start)), ns, 0, 0, true)
  {
    assert RunsSince(WithBox(ns, start, Since(start)).s.db, ns, Since(start)) == {};
    assert multiset{}[Ticket(ns, true) := 0] == multiset{};
  }

  lemma FirstBox(plans: Plans, rows: seq<Row>, k: nat, start: int, ns: string) returns (events: seq<Event>)
    requires ns != "" && k > 0 && plans(ns).activeBoxes != 0
    ensures Ran(Day(plans, rows, k, start, events), ns, 0, 0, true)
  {
    var a, b := Ask(ns, false), MakeBox(ns, "", "", "", "");
    FirstAsk(plans, rows, k, start, Since(start), ns);
    DaySnoc(plans, rows, k, start, [], a);
    FirstMake(plans, rows, k, start, Since(start), ns);
    DaySnoc(plans, rows, k, start, [] + [a], b);
    FirstRan(ns, start);
    events := [] + [a] + [b];
  }

  lemma {:induction false} FillRuns(plans: Plans, rows: seq<Row>, k: nat, start: int, ns: string, n: nat)
    returns (events: seq<Event>)
    requires ns != "" && k > 0 && n < plans(ns).runsPerMonth && plans(ns).activeBoxes != 0
    ensures Ran(Day(plans, rows, k, start, events), ns, n, 0, true)
    decreases n, 0
  {
    if n == 0 {
      events := FirstBox(plans, rows, k, start, ns);
    } else {
      events := AskRuns(plans, rows, k, start, ns, n - 1, 1);
      events := OneRun(plans, rows, k, start, events, ns, n - 1, 1, true);
    }
  }

  lemma {:induction false} AskRuns(plans: Plans, rows: seq<Row>, k: nat, start: int, ns: string, n: nat, t: nat)
    returns (events: seq<Event>)
    requires ns != "" && k > 0 && t <= k && n < plans(ns).runsPerMonth && plans(ns).activeBoxes != 0
    ensures Ran(Day(plans, rows, k, start, events), ns, n, t, true)
    decreases n, t + 1
  {
    if t == 0 {
      events := FillRuns(plans, rows, k, start, ns, n);
    } else {
      events := AskRuns(plans, rows, k, start, ns, n, t - 1);
      events := OneAskRun(plans, rows, k, start, events, ns, n, t - 1);
    }
  }

  lemma {:induction false} StartRuns(plans: Plans, rows: seq<Row>, k: nat, start: int, ns: string, n: nat, j: nat)
    returns (events: seq<Event>)
    requires ns != "" && k > 0 && j <= k && n < plans(ns).runsPerMonth && plans(ns).activeBoxes != 0
    ensures Ran(Day(plans, rows, k, start, events), ns, n + j, k - j, true)
  {
    if j == 0 {
      events := AskRuns(plans, rows, k, start, ns, n, k);
    } else {
      events := StartRuns(plans, rows, k, start, ns, n, j - 1);
      events := OneRun(plans, rows, k, start, events, ns, n + j - 1, k - j + 1, true);
    }
  }

  /** k calls admitted at cap - 1 runs: the sandbox cap is passed by k - 1. */
  lemma SandboxOvershoots(plans: Plans, rows: seq<Row>, k: nat, start: int, ns: string) returns (events: seq<Event>)
    requires ns != "" && k > 0 && plans(ns).runsPerMonth > 0 && plans(ns).activeBoxes != 0
    ensures var o := Day(plans, rows, k, start, events); Runs(o.s.db, ns, o.now) == Bound(plans(ns).runsPerMonth, k)
  {
    events := StartRuns(plans, rows, k, start, ns, plans(ns).runsPerMonth - 1, k);
  }
}
