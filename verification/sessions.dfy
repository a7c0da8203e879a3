/**
 Whole conversations: the turns that clients ask for, whatever the provider and the
 tools answer, and what that makes of every request and every history.
 */
module Sessions {
  import opened TurnTable
  import opened Conversation
  import opened Memory
  import opened Pairing

  /** A turn as it is asked for and as the world answers it; `stored` says whether the table took
      its row. */
  datatype Request = Request(turn: string, box: string, text: string, model: string, world: World, now: int, stored: bool)

  function CourseOf(r: Request, maxIters: nat): Progress { Course(r.turn, r.text, r.world, maxIters) }

  /** A turn is stored if it came to its end and the table took it. */
  predicate Lasts(r: Request, maxIters: nat) {
    r.stored && (CourseOf(r, maxIters).end.Going? || CourseOf(r, maxIters).end.Stopped?)
  }

  function SaidBy(r: Request, maxIters: nat): Said {
    Said(RowFor(r.turn, r.box, r.text, r.model, CourseOf(r, maxIters), r.now), CourseOf(r, maxIters).own)
  }

  /** The stored turns of a session, one after the other. */
  function Session(requests: seq<Request>, maxIters: nat): seq<Said> {
    if requests == [] then []
    else
      var r := requests[|requests| - 1];
      Session(requests[..|requests| - 1], maxIters) + if Lasts(r, maxIters) then [SaidBy(r, maxIters)] else []
  }

  /** The table follows: a turn that lasts adds the row that Engine.Run stores, any other none. */
  lemma SessionTable(system: string, requests: seq<Request>, r: Request, maxIters: nat)
    ensures var rows := Table(system, Session(requests, maxIters)); var t := SaidBy(r, maxIters);
            Table(system, Session(requests + [r], maxIters)) ==
            if Lasts(r, maxIters) then Stored(system, rows, t.row, t.own) else rows
  {
    assert (requests + [r])[..|requests|] == requests;
    if Lasts(r, maxIters) {
      TableSnoc(system, Session(requests, maxIters), SaidBy(r, maxIters));
    } else {
      assert Session(requests, maxIters) + [] == Session(requests, maxIters);
    }
  }

  /** Every stored turn starts with the user's message, has no prompt and answers all its calls. */
  lemma {:induction false} SessionIsSound(requests: seq<Request>, maxIters: nat)
    ensures var said := Session(requests, maxIters); AllNoPrompts(said) && AllSpeak(said) && AllPaired(said)
  {
    if requests != [] {
      var r := requests[|requests| - 1];
      SessionIsSound(requests[..|requests| - 1], maxIters);
      OwnIsPaired(r.turn, r.text, r.world, maxIters);
    }
  }

  /** In every session, whatever a turn sends to the model or stores is paired: the system prompt,
      the replayed history and what the turn has added so far. */
  lemma EveryRequestIsPaired(system: string, requests: seq<Request>, maxIters: nat, next: Request, n: nat)
    requires !After(next.turn, next.text, next.world, n).end.Gone?
    ensures Paired([System(system)] + Remembered(system, Session(requests, maxIters), next.box)
                   + After(next.turn, next.text, next.world, n).own)
  {
    var said := Session(requests, maxIters);
    SessionIsSound(requests, maxIters);
    TablesTellPaired(system, said);
    HistoryIsPaired(system, said, next.box);
    OwnIsPaired(next.turn, next.text, next.world, n);
    PairedConcat([System(system)], Remembered(system, said, next.box));
    PairedConcat([System(system)] + Remembered(system, said, next.box), After(next.turn, next.text, next.world, n).own);
  }

  ghost predicate EndsDiffer(requests: seq<Request>, maxIters: nat, box: string) {
    AllSpeak(Session(requests, maxIters)) && DistinctEnds(Session(requests, maxIters), box)
  }

  /** In every session the history is complete if the stored turns of the box carry increasing stamps;
      and if no two of them end alike, it is complete after every turn only then. */
  lemma SessionsRemember(system: string, requests: seq<Request>, maxIters: nat, box: string)
    ensures var said := Session(requests, maxIters);
            InOrder(said, box) ==> Complete(system, said, box)
    ensures var said := Session(requests, maxIters);
            EndsDiffer(requests, maxIters, box) ==>
              ((forall n :: 0 <= n <= |said| ==> Complete(system, said[..n], box)) <==> InOrder(said, box))
  {
    var said := Session(requests, maxIters);
    SessionIsSound(requests, maxIters);
    if InOrder(said, box) { NothingIsForgotten(system, said, box); }
    if EndsDiffer(requests, maxIters, box) { CompleteIffInOrder(system, said, box); }
  }

  /** In every session the next history at least doubles with each stored turn, up to 20 of them. */
  lemma SessionsGrow(system: string, requests: seq<Request>, maxIters: nat, box: string)
    requires CountOf(Session(requests, maxIters), box) <= WINDOW
    ensures |Remembered(system, Session(requests, maxIters), box)| + 1 >= Power2(CountOf(Session(requests, maxIters), box))
  {
    SessionIsSound(requests, maxIters);
    HistoryIsExponential(system, Session(requests, maxIters), box);
  }
}
