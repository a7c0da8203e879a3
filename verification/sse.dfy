/**
 The event stream of a turn: the relay prints frames as server-sent events
 (relay/internal/handler/ai.go) and the Android client reads them line by line
 (AISSEClient.kt). JSON text is a parameter: a pair of functions that is faithful
 on the objects printed here.
 */
module EventStream {
  import opened Wire
  import opened Frames
  import Conversation

  // ----- payloads -----

  datatype Value = Str(text: string) | Num(n: int) | Bool(b: bool)

  type Object = map<string, Value>

  /** json.Marshal, and parseToJsonElement where it yields an object. */
  datatype Json = Json(render: Object -> string, parse: string -> Option<Object>)

  /** Marshalled objects fit on one line and read back. */
  ghost predicate Faithful(json: Json) {
    forall o :: Clean(json.render(o)) && json.parse(json.render(o)) == Some(o)
  }

  predicate Clean(s: string) { forall i :: 0 <= i < |s| ==> s[i] != '\n' && s[i] != '\r' }

  // ----- the printer -----

  function EventOf(f: Frame): string {
    match f
    case Token(_, _) => "token"
    case Call(_, _, _, _) => "tool_call"
    case Result(_, _, _, _) => "tool_result"
    case Finished(_, _, _, _) => "finished"
    case Err(_, _) => "error"
  }

  function PayloadOf(f: Frame): Object {
    match f
    case Token(turn, text) => map["turn_id" := Str(turn), "text" := Str(text)]
    case Call(turn, id, name, args) =>
      map["turn_id" := Str(turn), "call_id" := Str(id), "name" := Str(name), "args_json" := Str(args)]
    case Result(turn, id, result, isError) =>
      map["turn_id" := Str(turn), "call_id" := Str(id), "result_json" := Str(result), "is_error" := Bool(isError)]
    case Finished(turn, stop, tokensIn, tokensOut) =>
      map["turn_id" := Str(turn), "stop_reason" := Str(stop), "tokens_in" := Num(tokensIn), "tokens_out" := Num(tokensOut)]
    case Err(turn, error) => map["turn_id" := Str(turn), "error" := Str(error)]
  }

  /** writeSSE: one record. */
  function Record(event: string, payload: string): string {
    ("event: " + event) + "\n" + (("data: " + payload) + "\n" + ([] + "\n"))
  }

  function RecordOf(json: Json, f: Frame): string { Record(EventOf(f), json.render(PayloadOf(f))) }

  function Print(json: Json, frames: seq<Frame>): string {
    if frames == [] then "" else RecordOf(json, frames[0]) + Print(json, frames[1..])
  }

  // ----- the client -----

  function Cut(s: string): nat { if s == [] || s[0] == '\n' then 0 else 1 + Cut(s[1..]) }

  function Strip(line: string): string {
    if line != [] && line[|line| - 1] == '\r' then line[..|line| - 1] else line
  }

  lemma {:induction false} CutBounds(s: string)
    ensures Cut(s) <= |s| && (Cut(s) < |s| ==> s[Cut(s)] == '\n')
    ensures forall i :: 0 <= i < Cut(s) ==> s[i] != '\n'
  {
    if s != [] && s[0] != '\n' {
      CutBounds(s[1..]);
      forall i | 0 < i < Cut(s) ensures s[i] != '\n' { assert s[i] == s[1..][i - 1]; }
    }
  }

  /** readUtf8Line until the source is exhausted: the last line may lack its line feed. */
  function Lines(s: string): seq<string> {
    CutBounds(s);
    if s == [] then []
    else if Cut(s) == |s| then [s]
    else [Strip(s[..Cut(s)])] + Lines(s[Cut(s) + 1..])
  }

  predicate StartsWith(s: string, prefix: string) { |prefix| <= |s| && s[..|prefix|] == prefix }

  const EVENT := "event: "
  const DATA := "data: "

  function TextIn(o: Object, key: string, missing: string): string {
    if key in o && o[key].Str? then o[key].text else missing
  }

  // intOrNull ?: 0 into a 32-bit Int
  function IntIn(o: Object, key: string): int {
    if key in o && o[key].Num? then Int32(o[key].n) else 0
  }

  function Int32(n: int): int { if -0x8000_0000 <= n < 0x8000_0000 then n else 0 }

  function Decode(event: string, o: Object): Option<Frame> {
    var turn := TextIn(o, "turn_id", "");
    match event
    case "token" => Some(Token(turn, TextIn(o, "text", "")))
    case "tool_call" => Some(Call(turn, TextIn(o, "call_id", ""), TextIn(o, "name", ""), TextIn(o, "args_json", "")))
    case "tool_result" =>
      Some(Result(turn, TextIn(o, "call_id", ""), TextIn(o, "result_json", ""),
                  if "is_error" in o && o["is_error"].Bool? then o["is_error"].b else false))
    case "finished" => Some(Finished(turn, TextIn(o, "stop_reason", ""), IntIn(o, "tokens_in"), IntIn(o, "tokens_out")))
    case "error" => Some(Err(turn, TextIn(o, "error", "unknown error")))
    case _ => None
  }

  function Parse(json: Json, event: string, payload: string): Option<Frame> {
    match json.parse(payload)
    case None => None
    case Some(o) => Decode(event, o)
  }

  /** An event line sets the event of the data lines after it, a blank line resets it. */
  function NextEvent(event: string, line: string): string {
    if line == "" then "message" else if StartsWith(line, EVENT) then line[|EVENT|..] else event
  }

  function FrameIn(json: Json, event: string, line: string): Option<Frame> {
    if StartsWith(line, DATA) && !StartsWith(line, EVENT) then Parse(json, event, line[|DATA|..]) else None
  }

  /** What the line loop emits from these lines on. */
  function Client(json: Json, event: string, lines: seq<string>): seq<Frame>
    decreases |lines|
  {
    if lines == [] then []
    else
      var rest := Client(json, NextEvent(event, lines[0]), lines[1..]);
      match FrameIn(json, event, lines[0])
      case None => rest
      case Some(f) => if f.Terminal() then [f] else [f] + rest
  }

  function Received(json: Json, bytes: string): seq<Frame> { Client(json, "message", Lines(bytes)) }

  // ----- what the client should get -----

  /** Token counts arrive as 32-bit integers, or as zero if they do not fit. */
  function Narrow(f: Frame): Frame {
    if f.Finished? then f.(tokensIn := Int32(f.tokensIn), tokensOut := Int32(f.tokensOut)) else f
  }

  /** The frames up to and including the first terminal one. */
  function Expected(frames: seq<Frame>): seq<Frame> {
    if frames == [] then []
    else if frames[0].Terminal() then [Narrow(frames[0])]
    else [Narrow(frames[0])] + Expected(frames[1..])
  }

  lemma DecodeOfPayload(f: Frame)
    ensures Decode(EventOf(f), PayloadOf(f)) == Some(Narrow(f))
  {}

  /** Only the two token counts can change on the way, and a count that fits 32 bits does not. */
  lemma FittingCountsArrive(f: Frame)
    ensures !f.Finished? ==> Narrow(f) == f
    ensures f.Finished? && -2_147_483_648 <= f.tokensIn <= 2_147_483_647 && -2_147_483_648 <= f.tokensOut <= 2_147_483_647 ==>
              Narrow(f) == f
    ensures f.Finished? && !(-2_147_483_648 <= f.tokensIn <= 2_147_483_647) ==> Narrow(f).tokensIn == 0
    ensures f.Finished? && !(-2_147_483_648 <= f.tokensOut <= 2_147_483_647) ==> Narrow(f).tokensOut == 0
  {}

  // ----- lines of printed records -----

  lemma {:induction false} CutAt(a: string, rest: string)
    requires Clean(a)
    ensures Cut(a + ("\n" + rest)) == |a|
    ensures Cut(a) == |a|
  {
    if a == [] {
      assert a + ("\n" + rest) == "\n" + rest;
    } else {
      CutAt(a[1..], rest);
      assert (a + ("\n" + rest))[1..] == a[1..] + ("\n" + rest);
    }
  }

  lemma LineThen(a: string, rest: string)
    requires Clean(a)
    ensures Lines(a + "\n" + rest) == [a] + Lines(rest)
  {
    CutAt(a, rest);
    var s := a + ("\n" + rest);
    assert a + "\n" + rest == s;
    assert s[..|a|] == a && s[|a| + 1..] == rest;
  }

  /** A line may also end in CR LF. */
  lemma CrlfEndsLine(a: string, rest: string)
    requires Clean(a)
    ensures Lines(a + "\r" + "\n" + rest) == [a] + Lines(rest)
  {
    var line := a + "\r";
    CutAtLine(line, rest);
    assert line + "\n" + rest == line + ("\n" + rest);
    assert (line + ("\n" + rest))[..|line|] == line && (line + ("\n" + rest))[|line| + 1..] == rest;
    assert Strip(line) == a;
  }

  lemma {:induction false} CutAtLine(line: string, rest: string)
    requires '\n' !in line
    ensures Cut(line + ("\n" + rest)) == |line|
  {
    if line == [] {
      assert line + ("\n" + rest) == "\n" + rest;
    } else {
      CutAtLine(line[1..], rest);
      assert (line + ("\n" + rest))[1..] == line[1..] + ("\n" + rest);
    }
  }

  /** After a blank line a data line needs an event of its own: without one it yields nothing. */
  lemma BlankLineResets(json: Json, event: string, payload: string, rest: seq<string>)
    ensures Client(json, event, [""] + ([DATA + payload] + rest)) == Client(json, "message", rest)
  {
    var lines := [""] + ([DATA + payload] + rest);
    assert lines[0] == "" && lines[1..] == [DATA + payload] + rest;
    assert ([DATA + payload] + rest)[0] == DATA + payload && ([DATA + payload] + rest)[1..] == rest;
    assert (DATA + payload)[0] == 'd';
    assert |EVENT| <= |DATA + payload| ==> (DATA + payload)[..|EVENT|][0] == 'd';
    assert NextEvent("message", DATA + payload) == "message";
  }

  function EventLine(f: Frame): string { "event: " + EventOf(f) }

  function DataLine(json: Json, f: Frame): string { "data: " + json.render(PayloadOf(f)) }

  lemma CleanJoin(a: string, b: string)
    requires Clean(a) && Clean(b)
    ensures Clean(a + b)
  {}

  lemma EventsAreClean(f: Frame)
    ensures Clean(EventOf(f))
  {}

  lemma LinesAreClean(json: Json, f: Frame)
    requires Faithful(json)
    ensures Clean(EventLine(f)) && Clean(DataLine(json, f))
  {
    EventsAreClean(f);
    assert Clean(json.render(PayloadOf(f)));
    CleanJoin("event: ", EventOf(f));
    CleanJoin("data: ", json.render(PayloadOf(f)));
  }

  lemma RecordLines(json: Json, f: Frame, tail: string)
    requires Faithful(json)
    ensures Lines(RecordOf(json, f) + tail) == [EventLine(f)] + ([DataLine(json, f)] + ([""] + Lines(tail)))
  {
    LinesAreClean(json, f);
    var e, d := EventLine(f), DataLine(json, f);
    assert RecordOf(json, f) + tail == e + "\n" + (d + "\n" + ([] + "\n" + tail));
    LineThen(e, d + "\n" + ([] + "\n" + tail));
    LineThen(d, [] + "\n" + tail);
    LineThen([], tail);
  }

  lemma EventLineIsRead(json: Json, event: string, f: Frame, rest: seq<string>)
    ensures Client(json, event, [EventLine(f)] + rest) == Client(json, EventOf(f), rest)
  {
    var lines := [EventLine(f)] + rest;
    assert lines[0] == EventLine(f) && lines[1..] == rest;
    assert EventLine(f)[..|EVENT|] == EVENT && EventLine(f)[|EVENT|..] == EventOf(f);
  }

  lemma DataLineIsRead(json: Json, f: Frame, rest: seq<string>)
    requires Faithful(json)
    ensures Client(json, EventOf(f), [DataLine(json, f)] + rest) ==
            if f.Terminal() then [Narrow(f)] else [Narrow(f)] + Client(json, EventOf(f), rest)
  {
    var lines, payload := [DataLine(json, f)] + rest, json.render(PayloadOf(f));
    assert lines[0] == DataLine(json, f) && lines[1..] == rest;
    assert lines[0][..|DATA|] == DATA && lines[0][|DATA|..] == payload && lines[0][0] == 'd';
    assert |EVENT| <= |lines[0]| ==> lines[0][..|EVENT|][0] == lines[0][0];
    assert json.parse(payload) == Some(PayloadOf(f));
    DecodeOfPayload(f);
  }

  lemma BlankLineIsRead(json: Json, event: string, rest: seq<string>)
    ensures Client(json, event, [""] + rest) == Client(json, "message", rest)
  {
    var lines := [""] + rest;
    assert lines[0] == "" && lines[1..] == rest;
  }

  lemma RecordIsRead(json: Json, f: Frame, tail: string)
    requires Faithful(json)
    ensures Received(json, RecordOf(json, f) + tail) ==
            if f.Terminal() then [Narrow(f)] else [Narrow(f)] + Received(json, tail)
  {
    RecordLines(json, f, tail);
    EventLineIsRead(json, "message", f, [DataLine(json, f)] + ([""] + Lines(tail)));
    DataLineIsRead(json, f, [""] + Lines(tail));
    BlankLineIsRead(json, EventOf(f), Lines(tail));
  }

  /** The client gets exactly the printed frames, up to and including the first terminal one. */
  lemma {:induction false} PrintedIsReceived(json: Json, frames: seq<Frame>)
    requires Faithful(json)
    ensures Received(json, Print(json, frames)) == Expected(frames)
  {
    if frames != [] {
      RecordIsRead(json, frames[0], Print(json, frames[1..]));
      PrintedIsReceived(json, frames[1..]);
    }
  }

  // ----- the two loops -----

  lemma Regroup(a: string, b: string, c: string)
    ensures a + (b + c) == (a + b) + c
  {}

  lemma {:induction false} PrintSnoc(json: Json, frames: seq<Frame>, f: Frame)
    ensures Print(json, frames + [f]) == Print(json, frames) + RecordOf(json, f)
  {
    if frames == [] {
      assert [] + [f] == [f] && [f][1..] == [];
    } else {
      PrintSnoc(json, frames[1..], f);
      assert (frames + [f])[0] == frames[0] && (frames + [f])[1..] == frames[1..] + [f];
      Regroup(RecordOf(json, frames[0]), Print(json, frames[1..]), RecordOf(json, f));
    }
  }

  // The handler's drain loop; it stops when the client is found to have hung up after a write.
  method Drain(json: Json, frames: seq<Frame>, hungUpAfter: nat) returns (written: string)
    ensures written == Print(json, if hungUpAfter < |frames| then frames[..hungUpAfter + 1] else frames)
  {
    written := "";
    for i := 0 to |frames|
      invariant i <= hungUpAfter + 1 && written == Print(json, frames[..i])
    {
      if i == hungUpAfter + 1 { return; }
      PrintSnoc(json, frames[..i], frames[i]);
      assert frames[..i] + [frames[i]] == frames[..i + 1];
      written := written + RecordOf(json, frames[i]);
    }
    assert frames[..|frames|] == frames;
  }

  method ReadLine(source: string) returns (line: string, rest: string)
    requires source != ""
    ensures Lines(source) == [line] + Lines(rest) && |rest| < |source|
  {
    CutBounds(source);
    var n := Cut(source);
    if n == |source| {
      line, rest := source, "";
    } else {
      line, rest := Strip(source[..n]), source[n + 1..];
    }
  }

  lemma ClientCons(json: Json, event: string, line: string, lines: seq<string>)
    ensures Client(json, event, [line] + lines) ==
            match FrameIn(json, event, line)
            case None => Client(json, NextEvent(event, line), lines)
            case Some(f) => if f.Terminal() then [f] else [f] + Client(json, NextEvent(event, line), lines)
  {
    assert ([line] + lines)[1..] == lines;
  }

  method Turn(json: Json, bytes: string) returns (emitted: seq<Frame>)
    ensures emitted == Received(json, bytes)
  {
    emitted := [];
    var event, source := "message", bytes;
    while source != ""
      invariant emitted + Client(json, event, Lines(source)) == Received(json, bytes)
      decreases |source|
    {
      var line;
      line, source := ReadLine(source);
      ClientCons(json, event, line, Lines(source));
      var frame := None;
      if line == "" {
        event := "message";
      } else if StartsWith(line, EVENT) {
        event := line[|EVENT|..];
      } else if StartsWith(line, DATA) {
        frame := Parse(json, event, line[|DATA|..]);
      }
      if frame.Some? {
        emitted := emitted + [frame.value];
        if frame.value.Terminal() { return; }
      }
    }
  }

  // ----- a whole turn, from the engine to the client -----

  lemma {:induction false} ExpectedAll(frames: seq<Frame>)
    requires forall i :: 0 <= i < |frames| - 1 ==> !frames[i].Terminal()
    ensures |Expected(frames)| == |frames| && forall i :: 0 <= i < |frames| ==> Expected(frames)[i] == Narrow(frames[i])
  {
    if frames != [] && !frames[0].Terminal() {
      ExpectedAll(frames[1..]);
    }
  }

  /** Every frame of a turn reaches a client that stays connected, in order, changed only where
      a token count does not fit 32 bits. */
  lemma TurnReachesClient(json: Json, turn: string, text: string, world: Conversation.World, maxIters: nat,
                          readable: bool, failure: string, room: bool, i: nat)
    requires Faithful(json)
    requires i < |FramesOfTurn(turn, text, world, maxIters, readable, failure, room)|
    ensures var frames := FramesOfTurn(turn, text, world, maxIters, readable, failure, room);
            var received := Received(json, Print(json, frames));
            |received| == |frames| && received[i] == Narrow(frames[i])
  {
    var frames := FramesOfTurn(turn, text, world, maxIters, readable, failure, room);
    PrintedIsReceived(json, frames);
    forall k | 0 <= k < |frames| - 1 ensures !frames[k].Terminal() {
      Conversation.TerminalIsLast(turn, text, world, maxIters, readable, failure, room, k);
    }
    ExpectedAll(frames);
  }

  function FramesOfTurn(turn: string, text: string, world: Conversation.World, maxIters: nat,
                        readable: bool, failure: string, room: bool): seq<Frame>
  {
    Conversation.FramesOf(turn, Conversation.Attempt(turn, text, world, maxIters, readable), failure, room)
  }
}
