/**
 Turns of one conversation (Run and loadHistory in relay/internal/ai/openai_engine.go):
 a turn replays the stored rows of its box, talks to the model in a loop, and
 stores what it sent and received. The provider's streams and the tools' results
 are whatever `World` says.
 */
module Conversation {
  import opened Wire
  import opened Assembly
  import opened TurnTable
  import opened Frames
  import Pricing

  // ----- history -----

  function NoSystem(msgs: seq<Chat>): seq<Chat> {
    if msgs == [] then []
    else NoSystem(msgs[..|msgs| - 1]) + if msgs[|msgs| - 1].System? then [] else [msgs[|msgs| - 1]]
  }

  /** What one stored row contributes; an unreadable row contributes nothing. */
  function Told(r: Row): seq<Chat> { if r.messages.Some? then NoSystem(r.messages.value) else [] }

  function Replay(newest: seq<Row>): seq<Chat> {
    if newest == [] then [] else Replay(newest[1..]) + Told(newest[0])
  }

  const WINDOW := 20

  function History(rows: seq<Row>, box: string): seq<Chat> { Replay(Newest(rows, box, WINDOW)) }

  // ----- one turn -----

  /** What iteration i meets: the model's stream, then the results of the tools it runs.
      Fewer results than calls means that the context ended first; `announced` says whether the
      call without a result had been announced by then. */
  datatype Iteration = Iteration(stream: Stream, results: seq<(string, bool)>, announced: bool)

  type World = nat -> Iteration

  datatype End = Going | Stopped | Broke | Gone

  /** What the loop has done: the messages it appended, totals, and the frames it emitted. */
  datatype Progress = Progress(own: seq<Chat>, end: End, tokensIn: int, tokensOut: int, finish: string, frames: seq<Frame>)

  function Spoken(turn: string, tokens: seq<string>): seq<Frame> {
    if tokens == [] then [] else Spoken(turn, tokens[..|tokens| - 1]) + [Token(turn, tokens[|tokens| - 1])]
  }

  /** The results of the first n calls, as messages and as frames. */
  function Answers(calls: seq<ToolCall>, results: seq<(string, bool)>, n: nat): seq<Chat>
    requires n <= |calls| && n <= |results|
  {
    if n == 0 then [] else Answers(calls, results, n - 1) + [Answer(calls[n - 1].id, results[n - 1].0)]
  }

  function CallFrames(turn: string, calls: seq<ToolCall>, results: seq<(string, bool)>, n: nat): seq<Frame>
    requires n <= |calls| && n <= |results|
  {
    if n == 0 then []
    else
      var c, r := calls[n - 1], results[n - 1];
      CallFrames(turn, calls, results, n - 1) + [Announce(turn, c), Result(turn, c.id, r.0, r.1)]
  }

  /** The frames of the tools: complete calls, then perhaps the announcement of one cut off. */
  function ToolFrames(turn: string, calls: seq<ToolCall>, it: Iteration): seq<Frame> {
    var n := Min(|calls|, |it.results|);
    CallFrames(turn, calls, it.results, n) +
    if n < |calls| && it.announced then [Announce(turn, calls[n])] else []
  }

  function Announce(turn: string, c: ToolCall): Frame { Call(turn, c.id, c.name, c.args) }

  function Min(a: nat, b: nat): nat { if a < b then a else b }

  function Iterate(turn: string, p: Progress, it: Iteration): Progress {
    var spoken := p.frames + Spoken(turn, Forwarded(it.stream));
    if Fails(it.stream) then p.(end := Broke, frames := spoken)
    else
      var r := ReplyOf(it.stream.responses);
      var n := Min(|r.calls|, |it.results|);
      Progress(p.own + [Assistant(r.content, r.calls)] + Answers(r.calls, it.results, n),
               if r.calls == [] then Stopped else if n < |r.calls| then Gone else Going,
               p.tokensIn + r.usage.prompt, p.tokensOut + r.usage.completion, r.finish,
               spoken + ToolFrames(turn, r.calls, it))
  }

  function After(turn: string, text: string, world: World, n: nat): Progress {
    if n == 0 then Progress([User(text)], Going, 0, 0, "", []) else Next(turn, After(turn, text, world, n - 1), world(n - 1))
  }

  function Next(turn: string, p: Progress, it: Iteration): Progress { if p.end.Going? then Iterate(turn, p, it) else p }

  /** The whole loop: it stops by itself or after maxIters iterations. */
  function Course(turn: string, text: string, world: World, maxIters: nat): Progress {
    After(turn, text, world, maxIters)
  }

  /** The loop, if the history could be read. */
  function Attempt(turn: string, text: string, world: World, maxIters: nat, readable: bool): Progress {
    if readable then Course(turn, text, world, maxIters) else Progress([User(text)], Broke, 0, 0, "", [])
  }

  /** The table after a turn was stored. */
  function Stored(system: string, rows: seq<Row>, r: Row, own: seq<Chat>): seq<Row> {
    rows + [r.(messages := Some([System(system)] + History(rows, r.box) + own))]
  }

  lemma {:induction false} EndedStays(turn: string, text: string, world: World, n: nat, m: nat)
    requires n <= m && !After(turn, text, world, n).end.Going?
    ensures After(turn, text, world, m) == After(turn, text, world, n)
  {
    if n < m { EndedStays(turn, text, world, n, m - 1); }
  }

  // ----- the account of a turn, from what the provider and the tools did -----

  /** What one iteration came to: whether it got a reply, whether that asked for nothing more, and if not,
      whether all its calls were answered; what the provider reported; the assistant's message, with all
      the text that was forwarded; and that text. */
  datatype Round = Round(replied: bool, final: bool, answered: bool, prompt: int, completion: int, finish: string,
                         said: Chat, heard: seq<string>)
  {
    predicate GoesOn() { replied && !final && answered }
  }

  type Rounds = nat -> Round

  function RoundOf(it: Iteration): Round {
    var choices, usage := Choices(it.stream.responses), LastUsage(it.stream.responses);
    var calls := Assemble(Collect(Deltas(choices)));
    Round(!Fails(it.stream), calls == [], |calls| <= |it.results|, usage.prompt, usage.completion, Finish(choices),
          Assistant(Text(Forwarded(it.stream)), calls), Forwarded(it.stream))
  }

  function RoundsOf(world: World): Rounds { (i: nat) => RoundOf(world(i)) }

  /** After k replies there is another iteration. */
  predicate Open(rounds: Rounds, k: nat) { k == 0 || rounds(k - 1).GoesOn() }

  /** How many of at most n iterations got a reply. */
  function Replies(rounds: Rounds, n: nat): (k: nat)
    ensures k <= n
  {
    if n == 0 then 0
    else
      var k := Replies(rounds, n - 1);
      if k == n - 1 && Open(rounds, k) && rounds(k).replied then n else k
  }

  /** How many were begun: the last one may have got no reply. */
  function Begun(rounds: Rounds, n: nat): nat {
    var k := Replies(rounds, n);
    if k < n && Open(rounds, k) then k + 1 else k
  }

  function PromptSum(rounds: Rounds, k: nat): int { if k == 0 then 0 else PromptSum(rounds, k - 1) + rounds(k - 1).prompt }

  function CompletionSum(rounds: Rounds, k: nat): int {
    if k == 0 then 0 else CompletionSum(rounds, k - 1) + rounds(k - 1).completion
  }

  function LastFinish(rounds: Rounds, k: nat): string { if k == 0 then "" else rounds(k - 1).finish }

  /** All that was forwarded in the first k iterations. */
  function Heard(rounds: Rounds, k: nat): seq<string> { if k == 0 then [] else Heard(rounds, k - 1) + rounds(k - 1).heard }

  /** How the loop stands after k replies in n iterations. */
  function EndAfter(rounds: Rounds, n: nat, k: nat): End {
    if k == 0 || rounds(k - 1).GoesOn() then (if k == n then Going else Broke) else if rounds(k - 1).final then Stopped else Gone
  }

  function AssistantsIn(msgs: seq<Chat>): seq<Chat> {
    if msgs == [] then []
    else AssistantsIn(msgs[..|msgs| - 1]) + if msgs[|msgs| - 1].Assistant? then [msgs[|msgs| - 1]] else []
  }

  function TokensIn(frames: seq<Frame>): seq<string> {
    if frames == [] then []
    else TokensIn(frames[..|frames| - 1]) + if frames[|frames| - 1].Token? then [frames[|frames| - 1].text] else []
  }

  /** What the turn has done after n iterations. It starts with the user's message; each reply left one
      assistant message; the totals are the sums of what the provider reported per reply; the client heard
      everything forwarded up to the last iteration begun. */
  ghost predicate Accounted(p: Progress, text: string, rounds: Rounds, n: nat) {
    var k := Replies(rounds, n);
    && p.own != [] && p.own[0] == User(text)
    && |AssistantsIn(p.own)| == k && (forall i :: 0 <= i < k ==> AssistantsIn(p.own)[i] == rounds(i).said)
    && p.tokensIn == PromptSum(rounds, k) && p.tokensOut == CompletionSum(rounds, k) && p.finish == LastFinish(rounds, k)
    && TokensIn(p.frames) == Heard(rounds, Begun(rounds, n))
    && p.end == EndAfter(rounds, n, k)
  }

  /** q is p after one more iteration, if there is one, that came to r. */
  ghost predicate Adds(p: Progress, q: Progress, r: Round) {
    if !p.end.Going? then q == p
    else
      && p.own <= q.own
      && AssistantsIn(q.own) == AssistantsIn(p.own) + (if r.replied then [r.said] else [])
      && q.tokensIn == p.tokensIn + (if r.replied then r.prompt else 0)
      && q.tokensOut == p.tokensOut + (if r.replied then r.completion else 0)
      && q.finish == (if r.replied then r.finish else p.finish)
      && TokensIn(q.frames) == TokensIn(p.frames) + r.heard
      && q.end == if !r.replied then Broke else if r.final then Stopped else if r.answered then Going else Gone
  }

  lemma GoingOn(rounds: Rounds, n: nat)
    requires EndAfter(rounds, n, Replies(rounds, n)).Going?
    ensures Replies(rounds, n) == n && Begun(rounds, n) == n && Begun(rounds, n + 1) == n + 1
    ensures Replies(rounds, n + 1) == if rounds(n).replied then n + 1 else n
  {}

  lemma NotGoingOn(rounds: Rounds, n: nat)
    requires !EndAfter(rounds, n, Replies(rounds, n)).Going?
    ensures Replies(rounds, n + 1) == Replies(rounds, n) && Begun(rounds, n + 1) == Begun(rounds, n)
    ensures EndAfter(rounds, n + 1, Replies(rounds, n)) == EndAfter(rounds, n, Replies(rounds, n))
  {}

  lemma OneMoreReply(p: Progress, q: Progress, text: string, rounds: Rounds, n: nat)
    requires Accounted(p, text, rounds, n) && p.end.Going? && Adds(p, q, rounds(n)) && rounds(n).replied
    ensures Accounted(q, text, rounds, n + 1)
  {
    GoingOn(rounds, n);
    assert q.own[0] == p.own[0];
  }

  lemma NoReply(p: Progress, q: Progress, text: string, rounds: Rounds, n: nat)
    requires Accounted(p, text, rounds, n) && p.end.Going? && Adds(p, q, rounds(n)) && !rounds(n).replied
    ensures Accounted(q, text, rounds, n + 1)
  {
    GoingOn(rounds, n);
    assert q.own[0] == p.own[0];
  }

  lemma OneMoreRound(p: Progress, q: Progress, text: string, rounds: Rounds, n: nat)
    requires Accounted(p, text, rounds, n) && Adds(p, q, rounds(n))
    ensures Accounted(q, text, rounds, n + 1)
  {
    if !p.end.Going? {
      NotGoingOn(rounds, n);
    } else if rounds(n).replied {
      OneMoreReply(p, q, text, rounds, n);
    } else {
      NoReply(p, q, text, rounds, n);
    }
  }

  lemma {:induction false} AssistantsConcat(a: seq<Chat>, b: seq<Chat>)
    ensures AssistantsIn(a + b) == AssistantsIn(a) + AssistantsIn(b)
  {
    if b == [] {
      assert a + b == a;
    } else {
      AssistantsConcat(a, b[..|b| - 1]);
      assert (a + b)[..|a + b| - 1] == a + b[..|b| - 1];
    }
  }

  lemma {:induction false} TokensInConcat(a: seq<Frame>, b: seq<Frame>)
    ensures TokensIn(a + b) == TokensIn(a) + TokensIn(b)
  {
    if b == [] {
      assert a + b == a;
    } else {
      TokensInConcat(a, b[..|b| - 1]);
      assert (a + b)[..|a + b| - 1] == a + b[..|b| - 1];
    }
  }

  lemma {:induction false} NoAssistantAnswers(calls: seq<ToolCall>, results: seq<(string, bool)>, n: nat)
    requires n <= |calls| && n <= |results|
    ensures AssistantsIn(Answers(calls, results, n)) == []
  {
    if n > 0 {
      NoAssistantAnswers(calls, results, n - 1);
      AssistantsConcat(Answers(calls, results, n - 1), [Answer(calls[n - 1].id, results[n - 1].0)]);
    }
  }

  lemma AssistantAdds(own: seq<Chat>, m: Chat, answers: seq<Chat>)
    requires m.Assistant? && AssistantsIn(answers) == []
    ensures AssistantsIn(own + [m] + answers) == AssistantsIn(own) + [m]
  {
    AssistantsConcat(own + [m], answers);
    AssistantsConcat(own, [m]);
    assert [m][..0] == [] && AssistantsIn([m]) == [m];
  }

  lemma {:induction false} SpokenTokens(turn: string, tokens: seq<string>)
    ensures TokensIn(Spoken(turn, tokens)) == tokens
  {
    if tokens != [] {
      SpokenTokens(turn, tokens[..|tokens| - 1]);
      var frames := Spoken(turn, tokens);
      assert frames[..|frames| - 1] == Spoken(turn, tokens[..|tokens| - 1]);
    }
  }

  lemma {:induction false} NoTokens(frames: seq<Frame>)
    requires forall i :: 0 <= i < |frames| ==> !frames[i].Token?
    ensures TokensIn(frames) == []
  {
    if frames != [] { NoTokens(frames[..|frames| - 1]); }
  }

  lemma {:induction false} CallFramesSayNothing(turn: string, calls: seq<ToolCall>, results: seq<(string, bool)>, n: nat)
    requires n <= |calls| && n <= |results|
    ensures forall i :: 0 <= i < |CallFrames(turn, calls, results, n)| ==> !CallFrames(turn, calls, results, n)[i].Token?
  {
    if n > 0 { CallFramesSayNothing(turn, calls, results, n - 1); }
  }

  lemma SpokenAdds(turn: string, frames: seq<Frame>, tokens: seq<string>, others: seq<Frame>)
    requires forall i :: 0 <= i < |others| ==> !others[i].Token?
    ensures TokensIn(frames + Spoken(turn, tokens) + others) == TokensIn(frames) + tokens
  {
    SpokenTokens(turn, tokens);
    TokensInConcat(frames, Spoken(turn, tokens));
    NoTokens(others);
    TokensInConcat(frames + Spoken(turn, tokens), others);
  }

  lemma ShowsMore(turn: string, p: Progress, it: Iteration, calls: seq<ToolCall>)
    requires !Fails(it.stream) ==> calls == ReplyOf(it.stream.responses).calls
    ensures TokensIn(Iterate(turn, p, it).frames) == TokensIn(p.frames) + Forwarded(it.stream)
  {
    var spoken := p.frames + Spoken(turn, Forwarded(it.stream));
    var others := if Fails(it.stream) then [] else ToolFrames(turn, calls, it);
    CallFramesSayNothing(turn, calls, it.results, Min(|calls|, |it.results|));
    SpokenAdds(turn, p.frames, Forwarded(it.stream), others);
    assert spoken + [] == spoken;
  }

  lemma SaysMore(turn: string, p: Progress, it: Iteration, calls: seq<ToolCall>)
    requires calls == ReplyOf(it.stream.responses).calls && !Fails(it.stream)
    ensures AssistantsIn(Iterate(turn, p, it).own) == AssistantsIn(p.own) + [Assistant(Text(Forwarded(it.stream)), calls)]
    ensures p.own <= Iterate(turn, p, it).own
  {
    var m := Min(|calls|, |it.results|);
    NoAssistantAnswers(calls, it.results, m);
    AssistantAdds(p.own, Assistant(Text(Forwarded(it.stream)), calls), Answers(calls, it.results, m));
  }

  lemma IterationAdds(turn: string, p: Progress, it: Iteration)
    ensures Adds(p, Next(turn, p, it), RoundOf(it))
  {
    var calls := ReplyOf(it.stream.responses).calls;
    ShowsMore(turn, p, it, calls);
    if !Fails(it.stream) { SaysMore(turn, p, it, calls); }
  }

  /** The states of the loop, one per iteration. */
  function States(turn: string, text: string, world: World): nat -> Progress { (n: nat) => After(turn, text, world, n) }

  lemma StartIsAccounted(turn: string, text: string, world: World)
    ensures Accounted(States(turn, text, world)(0), text, RoundsOf(world), 0)
  {
    assert [User(text)][..0] == [];
  }

  ghost predicate EachAdds(after: nat -> Progress, rounds: Rounds) {
    forall n: nat :: Adds(after(n), after(n + 1), rounds(n))
  }

  lemma StepAdds(turn: string, text: string, world: World, n: nat)
    ensures Adds(States(turn, text, world)(n), States(turn, text, world)(n + 1), RoundsOf(world)(n))
  {
    IterationAdds(turn, After(turn, text, world, n), world(n));
  }

  lemma StepsAdd(turn: string, text: string, world: World)
    ensures EachAdds(States(turn, text, world), RoundsOf(world))
  {
    forall n: nat ensures Adds(States(turn, text, world)(n), States(turn, text, world)(n + 1), RoundsOf(world)(n)) {
      StepAdds(turn, text, world, n);
    }
  }

  lemma OneMoreState(after: nat -> Progress, text: string, rounds: Rounds, n: nat)
    requires Accounted(after(n), text, rounds, n) && EachAdds(after, rounds)
    ensures Accounted(after(n + 1), text, rounds, n + 1)
  {
    OneMoreRound(after(n), after(n + 1), text, rounds, n);
  }

  /** Any sequence of states in which each iteration adds its round is accounted for. */
  lemma {:induction false} RunIsAccounted(after: nat -> Progress, text: string, rounds: Rounds, n: nat)
    requires Accounted(after(0), text, rounds, 0) && EachAdds(after, rounds)
    ensures Accounted(after(n), text, rounds, n)
  {
    if n > 0 {
      RunIsAccounted(after, text, rounds, n - 1);
      OneMoreState(after, text, rounds, n - 1);
    }
  }

  lemma TurnStates(turn: string, text: string, world: World, n: nat)
    ensures Accounted(States(turn, text, world)(n), text, RoundsOf(world), n)
  {
    StartIsAccounted(turn, text, world);
    StepsAdd(turn, text, world);
    RunIsAccounted(States(turn, text, world), text, RoundsOf(world), n);
  }

  lemma TurnAccount(turn: string, text: string, world: World, n: nat)
    ensures Accounted(After(turn, text, world, n), text, RoundsOf(world), n)
  {
    TurnStates(turn, text, world, n);
  }

  /** What a turn of these rounds is billed: the sums of the tokens, and their price. */
  ghost predicate BilledAs(r: Row, rounds: Rounds, n: nat) {
    var k := Replies(rounds, n);
    && r.tokensIn == PromptSum(rounds, k) && r.tokensOut == CompletionSum(rounds, k) && r.stop == LastFinish(rounds, k)
    && r.cents == Pricing.CostCents(r.model, PromptSum(rounds, k), CompletionSum(rounds, k))
  }

  ghost predicate FinishedAs(f: Frame, turn: string, rounds: Rounds, n: nat) {
    var k := Replies(rounds, n);
    f == Finished(turn, LastFinish(rounds, k), PromptSum(rounds, k), CompletionSum(rounds, k))
  }

  lemma TurnIsBilled(turn: string, box: string, text: string, model: string, world: World, n: nat, now: int)
    ensures BilledAs(RowFor(turn, box, text, model, Course(turn, text, world, n), now), RoundsOf(world), n)
  {
    TurnAccount(turn, text, world, n);
  }

  lemma TurnIsFinished(turn: string, text: string, world: World, n: nat, readable: bool, failure: string, room: bool)
    ensures var frames := FramesOf(turn, Attempt(turn, text, world, n, readable), failure, room);
            forall i :: 0 <= i < |frames| && frames[i].Finished? ==> FinishedAs(frames[i], turn, RoundsOf(world), n)
  {
    TurnAccount(turn, text, world, n);
    ProgressIsQuiet(turn, text, world, n);
  }

  /** How the frames of a turn end: with its totals if it came to an end by itself or ran out of
      iterations, with the error if the provider failed and there is room, with no terminal frame
      otherwise; no frame before the last is a terminal one. */
  ghost predicate ClosesAs(frames: seq<Frame>, turn: string, rounds: Rounds, n: nat, failure: string, room: bool) {
    var end := EndAfter(rounds, n, Replies(rounds, n));
    && (end.Going? || end.Stopped? ==> frames != [] && FinishedAs(frames[|frames| - 1], turn, rounds, n))
    && (end.Broke? && room ==> frames != [] && frames[|frames| - 1] == Err(turn, failure))
    && ((end.Broke? && !room) || end.Gone? ==> Quiet(frames))
    && (frames != [] ==> Quiet(frames[..|frames| - 1]))
  }

  lemma TurnCloses(turn: string, text: string, world: World, n: nat, failure: string, room: bool)
    ensures ClosesAs(FramesOf(turn, Course(turn, text, world, n), failure, room), turn, RoundsOf(world), n, failure, room)
  {
    TurnAccount(turn, text, world, n);
    ProgressIsQuiet(turn, text, world, n);
  }

  // ----- the tools -----

  lemma {:induction false} AnswersMatch(calls: seq<ToolCall>, results: seq<(string, bool)>, n: nat)
    requires n <= |calls| && n <= |results|
    ensures |Answers(calls, results, n)| == n
    ensures forall k :: 0 <= k < n ==> Answers(calls, results, n)[k] == Answer(calls[k].id, results[k].0)
  {
    if n > 0 { AnswersMatch(calls, results, n - 1); }
  }

  /** Frame pair k announces call k and reports its result. */
  ghost predicate Reports(frames: seq<Frame>, turn: string, calls: seq<ToolCall>, results: seq<(string, bool)>, n: nat)
    requires n <= |calls| && n <= |results| && 2 * n <= |frames|
  {
    forall k :: 0 <= k < n ==>
      && frames[2 * k] == Call(turn, calls[k].id, calls[k].name, calls[k].args)
      && frames[2 * k + 1] == Result(turn, calls[k].id, results[k].0, results[k].1)
  }

  lemma {:induction false} CallFramesReport(turn: string, calls: seq<ToolCall>, results: seq<(string, bool)>, n: nat)
    requires n <= |calls| && n <= |results|
    ensures |CallFrames(turn, calls, results, n)| == 2 * n && Reports(CallFrames(turn, calls, results, n), turn, calls, results, n)
  {
    if n > 0 { CallFramesReport(turn, calls, results, n - 1); }
  }

  lemma ToolFramesReport(turn: string, calls: seq<ToolCall>, it: Iteration)
    ensures var n, frames := Min(|calls|, |it.results|), ToolFrames(turn, calls, it);
            && 2 * n <= |frames| && Reports(frames, turn, calls, it.results, n)
            && frames[2 * n..] == if |it.results| < |calls| && it.announced
                                  then [Call(turn, calls[n].id, calls[n].name, calls[n].args)] else []
  {
    CallFramesReport(turn, calls, it.results, Min(|calls|, |it.results|));
  }

  class Engine {
    const system: string
    const model: string
    const maxIters: nat
    const turns: Turns

    constructor (system: string, model: string, maxIters: nat, turns: Turns)
      ensures this.system == system && this.model == model && this.turns == turns
      ensures this.maxIters == if maxIters == 0 then 10 else maxIters
    {
      this.system, this.model, this.turns := system, model, turns;
      this.maxIters := if maxIters == 0 then 10 else maxIters;
    }

    // Rows come newest first; the chat needs them oldest first, without old system prompts.
    method LoadHistory(box: string) returns (out: seq<Chat>)
      ensures out == History(turns.rows, box)
    {
      var rows := turns.Recent(box, WINDOW);
      out := [];
      var i := |rows|;
      assert rows[|rows|..] == [];
      while i > 0
        invariant 0 <= i <= |rows| && out == Replay(rows[i..])
      {
        i := i - 1;
        ghost var before := out;
        assert rows[i..][1..] == rows[i + 1..];
        if rows[i].messages.Some? {
          var msgs := rows[i].messages.value;
          for k := 0 to |msgs|
            invariant out == before + NoSystem(msgs[..k])
          {
            assert msgs[..k + 1][..k] == msgs[..k];
            if !msgs[k].System? { out := out + [msgs[k]]; }
          }
          assert msgs[..|msgs|] == msgs;
        }
      }
      assert rows[0..] == rows;
    }

    // The inner loop: announce a call, run it, report and remember its result.
    method RunTools(turn: string, calls: seq<ToolCall>, it: Iteration)
      returns (answers: seq<Chat>, frames: seq<Frame>, gone: bool)
      ensures answers == Answers(calls, it.results, Min(|calls|, |it.results|))
      ensures frames == ToolFrames(turn, calls, it)
      ensures gone <==> |it.results| < |calls|
    {
      answers, frames, gone := [], [], false;
      for k := 0 to |calls|
        invariant k <= |it.results| && !gone
        invariant answers == Answers(calls, it.results, k) && frames == CallFrames(turn, calls, it.results, k)
      {
        var tc := calls[k];
        if k == |it.results| {
          if it.announced { frames := frames + [Announce(turn, tc)]; }
          return answers, frames, true;
        }
        frames := frames + [Announce(turn, tc)] + [Result(turn, tc.id, it.results[k].0, it.results[k].1)];
        answers := answers + [Answer(tc.id, it.results[k].0)];
      }
    }

    method Speak(turn: string, tokens: seq<string>) returns (frames: seq<Frame>)
      ensures frames == Spoken(turn, tokens)
    {
      frames := [];
      for k := 0 to |tokens|
        invariant frames == Spoken(turn, tokens[..k])
      {
        assert tokens[..k + 1][..k] == tokens[..k];
        frames := frames + [Token(turn, tokens[k])];
      }
      assert tokens[..|tokens|] == tokens;
    }

    // One iteration: a completion, and the tools it asks for.
    method Exchange(turn: string, p: Progress, it: Iteration) returns (q: Progress)
      ensures q == Iterate(turn, p, it)
    {
      var reply, tokens := RunOne(it.stream);
      var spoken := Speak(turn, tokens);
      q := p.(frames := p.frames + spoken);
      if reply.None? { return q.(end := Broke); }
      var r := reply.value;
      var answers, frames, gone := RunTools(turn, r.calls, it);
      q := Progress(p.own + [Assistant(r.content, r.calls)] + answers,
                    if r.calls == [] then Stopped else if gone then Gone else Going,
                    p.tokensIn + r.usage.prompt, p.tokensOut + r.usage.completion, r.finish, q.frames + frames);
    }

    // The agent loop, up to the point where the turn is persisted or abandoned.
    method Converse(turn: string, text: string, world: World) returns (p: Progress)
      ensures p == Course(turn, text, world, maxIters)
    {
      p := Progress([User(text)], Going, 0, 0, "", []);
      var iter := 0;
      while iter < maxIters
        invariant iter <= maxIters && p == After(turn, text, world, iter) && p.end.Going?
      {
        p := Exchange(turn, p, world(iter));
        iter := iter + 1;
        if !p.end.Going? {
          EndedStays(turn, text, world, iter, maxIters);
          return;
        }
      }
    }

    // An empty box id is refused. A history that cannot be read ends the turn; a turn that cannot
    // be written still finishes. A failed turn reports its error if the frame channel has room,
    // and its trail row, which names no box, is refused by the foreign key.
    method Run(turn: string, box: string, text: string, model: string, world: World, failure: string,
               boxes: set<string>, readable: bool, writable: bool, room: bool, now: int)
      returns (ok: bool, frames: seq<Frame>)
      requires "" !in boxes
      modifies turns
      ensures ok <==> box != ""
      ensures ok ==> frames == FramesOf(turn, Attempt(turn, text, world, maxIters, readable), failure, room)
      ensures var p := Attempt(turn, text, world, maxIters, readable);
              turns.rows ==
                if ok && writable && (p.end.Going? || p.end.Stopped?) && box in boxes
                   && (forall x :: x in old(turns.rows) ==> x.id != turn)
                then Stored(system, old(turns.rows), RowFor(turn, box, text, if model != "" then model else this.model, p, now), p.own)
                else old(turns.rows)
      ensures turns.rows != old(turns.rows) ==>
                var r := turns.rows[|old(turns.rows)|];
                && |turns.rows| == |old(turns.rows)| + 1 && BilledAs(r, RoundsOf(world), maxIters)
                && r.id == turn && r.box == box && r.userText == text && r.at == now
                && r.model == (if model != "" then model else this.model)
                && r.messages == Some([System(system)] + History(old(turns.rows), box) + Course(turn, text, world, maxIters).own)
      ensures forall i :: 0 <= i < |frames| && frames[i].Finished? ==> FinishedAs(frames[i], turn, RoundsOf(world), maxIters)
      ensures ok && readable ==> ClosesAs(frames, turn, RoundsOf(world), maxIters, failure, room)
      ensures ok && !readable ==> frames == (if room then [Err(turn, failure)] else []) && turns.rows == old(turns.rows)
      ensures turns.rows != old(turns.rows) <==>
                var end := EndAfter(RoundsOf(world), maxIters, Replies(RoundsOf(world), maxIters));
                && readable && writable && (end.Going? || end.Stopped?) && box in boxes
                && forall x :: x in old(turns.rows) ==> x.id != turn
    {
      TurnAccount(turn, text, world, maxIters);
      TurnCloses(turn, text, world, maxIters, failure, room);
      TurnIsBilled(turn, box, text, if model != "" then model else this.model, world, maxIters, now);
      TurnIsFinished(turn, text, world, maxIters, readable, failure, room);
      if box == "" { return false, []; }
      ok := true;
      var history, p := [], Progress([User(text)], Broke, 0, 0, "", []);
      if readable {
        history := LoadHistory(box);
        p := Converse(turn, text, world);
      }
      frames := p.frames;
      match p.end {
        case Broke =>
          if room { frames := frames + [Err(turn, failure)]; }
          var _ := turns.Insert(Row(turn, "", "", None, "", 0, 0, 0, "error:" + failure, now), boxes, now);
        case Gone =>
        case _ =>
          var effective := if model != "" then model else this.model;
          var messages := [System(system)] + history + p.own;
          if writable {
            var _ := turns.Insert(RowFor(turn, box, text, effective, p, now).(messages := Some(messages)), boxes, now);
          }
          frames := frames + [Finished(turn, p.finish, p.tokensIn, p.tokensOut)];
      }
    }
  }

  function FramesOf(turn: string, p: Progress, failure: string, room: bool): seq<Frame> {
    p.frames +
    match p.end
    case Broke => if room then [Err(turn, failure)] else []
    case Gone => []
    case _ => [Finished(turn, p.finish, p.tokensIn, p.tokensOut)]
  }

  /** The row of a completed turn, its messages aside. */
  function RowFor(turn: string, box: string, text: string, model: string, p: Progress, now: int): Row {
    Row(turn, box, text, None, model, p.tokensIn, p.tokensOut,
        Pricing.CostCents(model, p.tokensIn, p.tokensOut), p.finish, now)
  }

  // ----- at most one terminal frame, and it is the last -----

  ghost predicate Quiet(frames: seq<Frame>) { forall i :: 0 <= i < |frames| ==> !frames[i].Terminal() }

  lemma {:induction false} ProgressIsQuiet(turn: string, text: string, world: World, n: nat)
    ensures Quiet(After(turn, text, world, n).frames)
  {
    if n > 0 {
      ProgressIsQuiet(turn, text, world, n - 1);
      var it := world(n - 1);
      SpokenIsQuiet(turn, Forwarded(it.stream));
      var r := ReplyOf(it.stream.responses);
      CallFramesAreQuiet(turn, r.calls, it.results, Min(|r.calls|, |it.results|));
      assert Quiet(ToolFrames(turn, r.calls, it));
    }
  }

  lemma {:induction false} SpokenIsQuiet(turn: string, tokens: seq<string>)
    ensures Quiet(Spoken(turn, tokens))
  {
    if tokens != [] { SpokenIsQuiet(turn, tokens[..|tokens| - 1]); }
  }

  lemma {:induction false} CallFramesAreQuiet(turn: string, calls: seq<ToolCall>, results: seq<(string, bool)>, n: nat)
    requires n <= |calls| && n <= |results|
    ensures Quiet(CallFrames(turn, calls, results, n))
  {
    if n > 0 { CallFramesAreQuiet(turn, calls, results, n - 1); }
  }

  /** A turn emits no frame after a terminal one, and Finished exactly when it gets to persisting. */
  lemma TerminalIsLast(turn: string, text: string, world: World, maxIters: nat, readable: bool, failure: string, room: bool, i: nat)
    requires i < |FramesOf(turn, Attempt(turn, text, world, maxIters, readable), failure, room)|
    ensures var p := Attempt(turn, text, world, maxIters, readable); var frames := FramesOf(turn, p, failure, room);
            && (frames[i].Terminal() ==> i == |frames| - 1)
            && (frames[i].Finished? ==> p.end.Going? || p.end.Stopped?)
            && (i == |frames| - 1 && (p.end.Going? || p.end.Stopped?) ==> frames[i].Finished?)
  {
    ProgressIsQuiet(turn, text, world, maxIters);
  }
}
