/**
 One streamed completion (runOne in relay/internal/ai/openai_engine.go): tool calls
 arrive as deltas tagged with an index and are assembled when the stream ends.
 */
module Assembly {
  import opened Wire

  datatype ToolCall = ToolCall(id: string, name: string, args: string)

  datatype Delta = Delta(index: Option<int>, id: string, name: string, args: string)

  /** A delta without an index belongs to call 0. */
  function Index(d: Delta): int { if d.index.Some? then d.index.value else 0 }

  /** Identifiers and names replace, arguments append, and empty strings change nothing. */
  function Absorb(p: ToolCall, d: Delta): ToolCall {
    ToolCall(if d.id != "" then d.id else p.id, if d.name != "" then d.name else p.name, p.args + d.args)
  }

  const BLANK := ToolCall("", "", "")

  function Pending(byIdx: map<int, ToolCall>, i: int): ToolCall { if i in byIdx then byIdx[i] else BLANK }

  function Collect(deltas: seq<Delta>): map<int, ToolCall> {
    if deltas == [] then map[]
    else
      var d, m := deltas[|deltas| - 1], Collect(deltas[..|deltas| - 1]);
      m[Index(d) := Absorb(Pending(m, Index(d)), d)]
  }

  /** The calls found at 0, 1, ..., n - 1. */
  function Listed(byIdx: map<int, ToolCall>, n: nat): seq<ToolCall> {
    if n == 0 then []
    else Listed(byIdx, n - 1) + if n - 1 in byIdx then [byIdx[n - 1]] else []
  }

  function Assemble(byIdx: map<int, ToolCall>): seq<ToolCall> { Listed(byIdx, |byIdx|) }

  // ----- what one index receives, on its own -----

  function Only(deltas: seq<Delta>, i: int): seq<Delta> {
    if deltas == [] then []
    else
      var d := deltas[|deltas| - 1];
      Only(deltas[..|deltas| - 1], i) + if Index(d) == i then [d] else []
  }

  function Joined(deltas: seq<Delta>): string {
    if deltas == [] then "" else Joined(deltas[..|deltas| - 1]) + deltas[|deltas| - 1].args
  }

  function LastId(deltas: seq<Delta>): string {
    if deltas == [] then ""
    else if deltas[|deltas| - 1].id != "" then deltas[|deltas| - 1].id else LastId(deltas[..|deltas| - 1])
  }

  function LastName(deltas: seq<Delta>): string {
    if deltas == [] then ""
    else if deltas[|deltas| - 1].name != "" then deltas[|deltas| - 1].name else LastName(deltas[..|deltas| - 1])
  }

  function Whole(deltas: seq<Delta>): ToolCall { ToolCall(LastId(deltas), LastName(deltas), Joined(deltas)) }

  lemma WholeSnoc(deltas: seq<Delta>, d: Delta)
    ensures Whole(deltas + [d]) == Absorb(Whole(deltas), d)
  {
    assert (deltas + [d])[..|deltas|] == deltas;
  }

  /** The map keeps, per index, the concatenated arguments and the last identifier and name. */
  lemma {:induction false} CollectedPerIndex(deltas: seq<Delta>, i: int)
    ensures i in Collect(deltas) <==> Only(deltas, i) != []
    ensures Pending(Collect(deltas), i) == Whole(Only(deltas, i))
  {
    if deltas != [] {
      CollectedPerIndex(deltas[..|deltas| - 1], i);
      WholeSnoc(Only(deltas[..|deltas| - 1], i), deltas[|deltas| - 1]);
      assert Only(deltas[..|deltas| - 1], i) + [] == Only(deltas[..|deltas| - 1], i);
    }
  }

  ghost predicate SamePerIndex(ds: seq<Delta>, es: seq<Delta>) {
    forall i :: Only(ds, i) == Only(es, i)
  }

  lemma SameAt(ds: seq<Delta>, es: seq<Delta>, i: int)
    requires SamePerIndex(ds, es)
    ensures i in Collect(ds) <==> i in Collect(es)
    ensures i in Collect(ds) ==> Collect(ds)[i] == Collect(es)[i]
  {
    CollectedPerIndex(ds, i);
    CollectedPerIndex(es, i);
  }

  lemma SameMap<K, V>(m: map<K, V>, n: map<K, V>)
    requires forall i :: i in m ==> i in n && n[i] == m[i]
    requires forall i :: i in n ==> i in m
    ensures m == n
  {}

  /** Reshuffling deltas without changing the order within any index changes nothing. */
  lemma ReshuffleKeepsCalls(ds: seq<Delta>, es: seq<Delta>)
    requires SamePerIndex(ds, es)
    ensures Assemble(Collect(ds)) == Assemble(Collect(es))
  {
    var m, n := Collect(ds), Collect(es);
    forall i ensures (i in m ==> i in n && n[i] == m[i]) && (i in n ==> i in m) { SameAt(ds, es, i); }
    SameMap(m, n);
  }

  function Upto(n: nat): (s: set<int>)
    ensures |s| == n && forall i :: i in s <==> 0 <= i < n
  {
    if n == 0 then {} else Upto(n - 1) + {n - 1}
  }

  predicate Full(byIdx: map<int, ToolCall>, n: nat) { forall i :: 0 <= i < n ==> i in byIdx }

  lemma {:induction false} ListedCounts(byIdx: map<int, ToolCall>, n: nat)
    ensures |Listed(byIdx, n)| <= n
    ensures |Listed(byIdx, n)| == n <==> Full(byIdx, n)
  {
    if n > 0 { ListedCounts(byIdx, n - 1); }
  }

  lemma {:induction false} ListedAt(byIdx: map<int, ToolCall>, n: nat, i: nat)
    requires Full(byIdx, n) && i < n
    ensures |Listed(byIdx, n)| == n && Listed(byIdx, n)[i] == byIdx[i]
  {
    ListedCounts(byIdx, n);
    ListedCounts(byIdx, n - 1);
    if i < n - 1 { ListedAt(byIdx, n - 1, i); }
  }

  lemma SameSize(a: set<int>, b: set<int>)
    requires a <= b && |a| == |b|
    ensures a == b
  {
    assert b == a + (b - a);
    assert |b - a| == 0;
  }

  /** No call is lost exactly when the indices are 0..n-1 with no gap. */
  lemma NoCallLostIff(deltas: seq<Delta>)
    ensures var m := Collect(deltas); |Assemble(m)| == |m| <==> m.Keys == Upto(|m|)
  {
    var m := Collect(deltas);
    ListedCounts(m, |m|);
    assert |m.Keys| == |m|;
    if Full(m, |m|) { SameSize(Upto(|m|), m.Keys); }
  }

  /** Then the calls come out in index order, each with everything its deltas carried. */
  lemma CallsInIndexOrder(deltas: seq<Delta>, i: nat)
    requires Collect(deltas).Keys == Upto(|Collect(deltas)|) && i < |Collect(deltas)|
    ensures |Assemble(Collect(deltas))| == |Collect(deltas)|
    ensures Assemble(Collect(deltas))[i] == Whole(Only(deltas, i))
  {
    ListedAt(Collect(deltas), |Collect(deltas)|, i);
    CollectedPerIndex(deltas, i);
  }

  // ----- what one index receives, said without recursion -----

  lemma {:induction false} JoinedConcat(a: seq<Delta>, b: seq<Delta>)
    ensures Joined(a + b) == Joined(a) + Joined(b)
  {
    if b == [] {
      assert a + b == a;
    } else {
      JoinedConcat(a, b[..|b| - 1]);
      assert (a + b)[..|a + b| - 1] == a + b[..|b| - 1];
      Regroup(Joined(a), Joined(b[..|b| - 1]), b[|b| - 1].args);
    }
  }

  lemma {:induction false} OnlyConcat(a: seq<Delta>, b: seq<Delta>, i: int)
    ensures Only(a + b, i) == Only(a, i) + Only(b, i)
  {
    if b == [] {
      assert a + b == a;
    } else {
      OnlyConcat(a, b[..|b| - 1], i);
      assert (a + b)[..|a + b| - 1] == a + b[..|b| - 1];
      Regroup(Only(a, i), Only(b[..|b| - 1], i), if Index(b[|b| - 1]) == i then [b[|b| - 1]] else []);
    }
  }

  /** The deltas of an index, in order, are the list with all others taken out; their arguments are
      strung together first to last; a delta without an index is one of index 0. */
  lemma PartsInOrder(a: seq<Delta>, d: Delta, b: seq<Delta>, i: int)
    ensures Only(a + [d] + b, i) ==
            Only(a, i) + (if d.index == Some(i) || (d.index == None && i == 0) then [d] else []) + Only(b, i)
    ensures Joined(a + [d] + b) == Joined(a) + d.args + Joined(b)
  {
    OnlyConcat(a + [d], b, i);
    OnlyConcat(a, [d], i);
    JoinedConcat(a + [d], b);
    JoinedConcat(a, [d]);
    assert [d][..0] == [];
    assert Joined([d]) == "" + d.args == d.args;
  }

  ghost predicate NoIds(deltas: seq<Delta>) { forall i :: 0 <= i < |deltas| ==> deltas[i].id == "" }

  ghost predicate NoNames(deltas: seq<Delta>) { forall i :: 0 <= i < |deltas| ==> deltas[i].name == "" }

  /** The identifier and the name are the last ones given, empty if none was. */
  lemma {:induction false} LastGivenWins(a: seq<Delta>, d: Delta, b: seq<Delta>)
    ensures d.id != "" && NoIds(b) ==> LastId(a + [d] + b) == d.id
    ensures NoIds(a + [d] + b) ==> LastId(a + [d] + b) == ""
    ensures d.name != "" && NoNames(b) ==> LastName(a + [d] + b) == d.name
    ensures NoNames(a + [d] + b) ==> LastName(a + [d] + b) == ""
  {
    var all := a + [d] + b;
    if b != [] {
      var init := b[..|b| - 1];
      LastGivenWins(a, d, init);
      assert all[..|all| - 1] == a + [d] + init && all[|all| - 1] == b[|b| - 1];
    } else {
      assert all == a + [d] && all[..|a|] == a;
      NoneGiven(a);
    }
  }

  lemma {:induction false} NoneGiven(deltas: seq<Delta>)
    ensures NoIds(deltas) ==> LastId(deltas) == ""
    ensures NoNames(deltas) ==> LastName(deltas) == ""
  {
    if deltas != [] { NoneGiven(deltas[..|deltas| - 1]); }
  }

  // ----- the stream loop -----

  datatype Usage = Usage(prompt: int, completion: int)
  datatype Choice = Choice(finish: string, content: string, calls: seq<Delta>)
  datatype Response = Response(usage: Option<Usage>, choices: seq<Choice>)

  /** A stream that ends, or breaks after some responses; the context may end when the text delta
      number `cut` is about to be forwarded. */
  datatype Stream = Stream(responses: seq<Response>, broken: bool, cut: Option<nat>)

  datatype Reply = Reply(content: string, calls: seq<ToolCall>, usage: Usage, finish: string)

  function Choices(rs: seq<Response>): seq<Choice> {
    if rs == [] then [] else Choices(rs[..|rs| - 1]) + rs[|rs| - 1].choices
  }

  function Deltas(cs: seq<Choice>): seq<Delta> {
    if cs == [] then [] else Deltas(cs[..|cs| - 1]) + cs[|cs| - 1].calls
  }

  /** The text deltas forwarded to the client, in order. */
  function Tokens(cs: seq<Choice>): seq<string> {
    if cs == [] then []
    else Tokens(cs[..|cs| - 1]) + if cs[|cs| - 1].content != "" then [cs[|cs| - 1].content] else []
  }

  function Text(tokens: seq<string>): string {
    if tokens == [] then "" else Text(tokens[..|tokens| - 1]) + tokens[|tokens| - 1]
  }

  function Finish(cs: seq<Choice>): string {
    if cs == [] then "" else if cs[|cs| - 1].finish != "" then cs[|cs| - 1].finish else Finish(cs[..|cs| - 1])
  }

  function LastUsage(rs: seq<Response>): Usage {
    if rs == [] then Usage(0, 0)
    else if rs[|rs| - 1].usage.Some? then rs[|rs| - 1].usage.value else LastUsage(rs[..|rs| - 1])
  }

  function ReplyOf(rs: seq<Response>): Reply {
    var cs := Choices(rs);
    Reply(Text(Tokens(cs)), Assemble(Collect(Deltas(cs))), LastUsage(rs), Finish(cs))
  }

  // ----- what a reply carries, said without recursion -----

  lemma {:induction false} TextConcat(a: seq<string>, b: seq<string>)
    ensures Text(a + b) == Text(a) + Text(b)
  {
    if b == [] {
      assert a + b == a;
    } else {
      TextConcat(a, b[..|b| - 1]);
      assert (a + b)[..|a + b| - 1] == a + b[..|b| - 1];
      Regroup(Text(a), Text(b[..|b| - 1]), b[|b| - 1]);
    }
  }

  lemma {:induction false} DeltasConcat(a: seq<Choice>, b: seq<Choice>)
    ensures Deltas(a + b) == Deltas(a) + Deltas(b)
  {
    if b == [] {
      assert a + b == a;
    } else {
      DeltasConcat(a, b[..|b| - 1]);
      assert (a + b)[..|a + b| - 1] == a + b[..|b| - 1];
      Regroup(Deltas(a), Deltas(b[..|b| - 1]), b[|b| - 1].calls);
    }
  }

  lemma {:induction false} TokensConcat(a: seq<Choice>, b: seq<Choice>)
    ensures Tokens(a + b) == Tokens(a) + Tokens(b)
  {
    if b == [] {
      assert a + b == a;
    } else {
      TokensConcat(a, b[..|b| - 1]);
      assert (a + b)[..|a + b| - 1] == a + b[..|b| - 1];
      Regroup(Tokens(a), Tokens(b[..|b| - 1]), if b[|b| - 1].content != "" then [b[|b| - 1].content] else []);
    }
  }

  /** Deltas, text deltas and text come out in the order of the stream; only empty texts are left out. */
  lemma ChoiceParts(a: seq<Choice>, c: Choice, b: seq<Choice>)
    ensures Deltas(a + [c] + b) == Deltas(a) + c.calls + Deltas(b)
    ensures Tokens(a + [c] + b) == Tokens(a) + (if c.content == "" then [] else [c.content]) + Tokens(b)
    ensures Text(Tokens(a + [c] + b)) == Text(Tokens(a)) + c.content + Text(Tokens(b))
  {
    DeltasConcat(a + [c], b);
    DeltasConcat(a, [c]);
    TokensConcat(a + [c], b);
    TokensConcat(a, [c]);
    assert [c][..0] == [];
    assert Deltas([c]) == c.calls && Tokens([c]) == if c.content == "" then [] else [c.content];
    TextConcat(Tokens(a + [c]), Tokens(b));
    TextConcat(Tokens(a), Tokens([c]));
    OneText(c.content);
  }

  lemma OneText(t: string)
    ensures Text(if t == "" then [] else [t]) == t
  {
    assert [t][..0] == [];
  }

  /** The usage is the last one reported, zero if none was. */
  lemma {:induction false} LastUsageWins(a: seq<Response>, r: Response, b: seq<Response>)
    requires forall i :: 0 <= i < |b| ==> b[i].usage == None
    ensures r.usage.Some? ==> LastUsage(a + [r] + b) == r.usage.value
    ensures (forall i :: 0 <= i < |a| ==> a[i].usage == None) && r.usage.None? ==> LastUsage(a + [r] + b) == Usage(0, 0)
  {
    var all := a + [r] + b;
    if b != [] {
      LastUsageWins(a, r, b[..|b| - 1]);
      assert all[..|all| - 1] == a + [r] + b[..|b| - 1];
    } else {
      assert all == a + [r] && all[..|a|] == a;
      if a != [] && r.usage.None? {
        assert a == a[..|a| - 1] + [a[|a| - 1]] + [];
        LastUsageWins(a[..|a| - 1], a[|a| - 1], []);
      }
    }
  }

  /** The finish reason is the last one given, empty if none was. */
  lemma {:induction false} LastFinishWins(a: seq<Choice>, c: Choice, b: seq<Choice>)
    requires forall i :: 0 <= i < |b| ==> b[i].finish == ""
    ensures c.finish != "" ==> Finish(a + [c] + b) == c.finish
    ensures (forall i :: 0 <= i < |a| ==> a[i].finish == "") && c.finish == "" ==> Finish(a + [c] + b) == ""
  {
    var all := a + [c] + b;
    if b != [] {
      LastFinishWins(a, c, b[..|b| - 1]);
      assert all[..|all| - 1] == a + [c] + b[..|b| - 1];
    } else {
      assert all == a + [c] && all[..|a|] == a;
      if a != [] && c.finish == "" {
        assert a == a[..|a| - 1] + [a[|a| - 1]] + [];
        LastFinishWins(a[..|a| - 1], a[|a| - 1], []);
      }
    }
  }

  /** What the loop has accumulated after the choices seen so far. */
  datatype Partial = Partial(content: string, finish: string, byIdx: map<int, ToolCall>, tokens: seq<string>)

  function Seen(cs: seq<Choice>): Partial {
    Partial(Text(Tokens(cs)), Finish(cs), Collect(Deltas(cs)), Tokens(cs))
  }

  lemma SeenSnoc(cs: seq<Choice>, c: Choice)
    ensures Seen(cs + [c]) == Partial(
              Seen(cs).content + c.content, if c.finish != "" then c.finish else Seen(cs).finish,
              Collect(Deltas(cs) + c.calls), Seen(cs).tokens + if c.content != "" then [c.content] else [])
  {
    assert (cs + [c])[..|cs|] == cs;
    assert (Tokens(cs) + [c.content])[..|Tokens(cs)|] == Tokens(cs);
    assert Tokens(cs) + [] == Tokens(cs) && Text(Tokens(cs)) + "" == Text(Tokens(cs));
  }

  lemma CollectSnoc(deltas: seq<Delta>, d: Delta)
    ensures Collect(deltas + [d]) == Collect(deltas)[Index(d) := Absorb(Pending(Collect(deltas), Index(d)), d)]
  {
    assert (deltas + [d])[..|deltas|] == deltas;
  }

  /** One delta, merged in place. */
  method TakeDelta(byIdx: map<int, ToolCall>, d: Delta) returns (m: map<int, ToolCall>)
    ensures m == byIdx[Index(d) := Absorb(Pending(byIdx, Index(d)), d)]
  {
    var p := Pending(byIdx, Index(d));
    if d.id != "" { p := p.(id := d.id); }
    if d.name != "" { p := p.(name := d.name); }
    if d.args != "" { p := p.(args := p.args + d.args); }
    m := byIdx[Index(d) := p];
    assert p.args + "" == p.args;
  }

  lemma OneMore<T>(before: seq<T>, xs: seq<T>, k: nat)
    requires k < |xs|
    ensures before + xs[..k + 1] == before + xs[..k] + [xs[k]]
  {}

  lemma AllOf<T>(before: seq<T>, xs: seq<T>)
    ensures before + xs[..0] == before && before + xs[..|xs|] == before + xs
  {}

  method Merge(byIdx: map<int, ToolCall>, ghost before: seq<Delta>, calls: seq<Delta>) returns (m: map<int, ToolCall>)
    requires byIdx == Collect(before)
    ensures m == Collect(before + calls)
  {
    m := byIdx;
    AllOf(before, calls);
    for k := 0 to |calls|
      invariant m == Collect(before + calls[..k])
    {
      m := TakeDelta(m, calls[k]);
      CollectSnoc(before + calls[..k], calls[k]);
      OneMore(before, calls, k);
    }
  }

  method Gather(byIdx: map<int, ToolCall>) returns (calls: seq<ToolCall>)
    ensures calls == Assemble(byIdx)
  {
    calls := [];
    for i := 0 to |byIdx|
      invariant calls == Listed(byIdx, i)
    {
      if i in byIdx { calls := calls + [byIdx[i]]; }
    }
  }

  predicate CutShort(stream: Stream) {
    stream.cut.Some? && stream.cut.value < |Tokens(Choices(stream.responses))|
  }

  predicate Fails(stream: Stream) { stream.broken || CutShort(stream) }

  /** The text deltas that get out. */
  function Forwarded(stream: Stream): seq<string> {
    var tokens := Tokens(Choices(stream.responses));
    if CutShort(stream) then tokens[..stream.cut.value] else tokens
  }

  lemma TokensGrow(a: seq<Choice>, b: seq<Choice>)
    ensures Tokens(a) <= Tokens(a + b)
  {
    TokensConcat(a, b);
  }

  /** The context ended before the deltas of all these choices were forwarded. */
  ghost predicate CutAt(tokens: seq<string>, cut: Option<nat>, choices: seq<Choice>) {
    cut.Some? && cut.value < |Tokens(choices)| && tokens == Tokens(choices)[..cut.value]
  }

  lemma CutStays(tokens: seq<string>, cut: Option<nat>, a: seq<Choice>, b: seq<Choice>)
    requires CutAt(tokens, cut, a)
    ensures CutAt(tokens, cut, a + b)
  {
    TokensGrow(a, b);
  }

  predicate WithinCut(p: Partial, cut: Option<nat>) { cut.Some? ==> |p.tokens| <= cut.value }

  /** The text of one choice; the context may end instead of its forwarding. */
  method TakeText(p: Partial, text: string, cut: Option<nat>) returns (q: Partial, gone: bool)
    requires WithinCut(p, cut)
    ensures gone <==> text != "" && cut == Some(|p.tokens|)
    ensures gone ==> q.tokens == p.tokens
    ensures !gone ==> WithinCut(q, cut) &&
                      q == p.(content := p.content + text, tokens := p.tokens + if text != "" then [text] else [])
  {
    q, gone := p, false;
    assert p.content + "" == p.content && p.tokens + [] == p.tokens;
    if text != "" {
      q := q.(content := q.content + text);
      if cut == Some(|q.tokens|) { return q, true; }
      q := q.(tokens := q.tokens + [text]);
    }
  }

  lemma CutHere(before: seq<Choice>, c: Choice, cut: Option<nat>)
    requires c.content != "" && cut == Some(|Tokens(before)|)
    ensures CutAt(Tokens(before), cut, before + [c])
  {
    assert (before + [c])[..|before|] == before;
  }

  method TakeChoice(p: Partial, ghost before: seq<Choice>, choice: Choice, cut: Option<nat>) returns (q: Partial, gone: bool)
    requires p == Seen(before) && WithinCut(p, cut)
    ensures !gone ==> q == Seen(before + [choice]) && WithinCut(q, cut)
    ensures gone ==> CutAt(q.tokens, cut, before + [choice])
  {
    q, gone := TakeText(p, choice.content, cut);
    if gone {
      CutHere(before, choice, cut);
    } else {
      SeenSnoc(before, choice);
      if choice.finish != "" { q := q.(finish := choice.finish); }
      var byIdx := Merge(p.byIdx, Deltas(before), choice.calls);
      q := q.(byIdx := byIdx);
    }
  }

  method TakeChoices(p: Partial, ghost before: seq<Choice>, choices: seq<Choice>, cut: Option<nat>) returns (q: Partial, gone: bool)
    requires p == Seen(before) && WithinCut(p, cut)
    ensures !gone ==> q == Seen(before + choices) && WithinCut(q, cut)
    ensures gone ==> CutAt(q.tokens, cut, before + choices)
  {
    q, gone := p, false;
    AllOf(before, choices);
    for j := 0 to |choices|
      invariant !gone && q == Seen(before + choices[..j]) && WithinCut(q, cut)
    {
      OneMore(before, choices, j);
      q, gone := TakeChoice(q, before + choices[..j], choices[j], cut);
      if gone {
        CutStays(q.tokens, cut, before + choices[..j + 1], choices[j + 1..]);
        assert before + choices[..j + 1] + choices[j + 1..] == before + choices;
        return;
      }
    }
  }

  lemma {:induction false} ChoicesConcat(a: seq<Response>, b: seq<Response>)
    ensures Choices(a + b) == Choices(a) + Choices(b)
  {
    if b == [] {
      assert a + b == a;
    } else {
      ChoicesConcat(a, b[..|b| - 1]);
      assert (a + b)[..|a + b| - 1] == a + b[..|b| - 1];
      Regroup(Choices(a), Choices(b[..|b| - 1]), b[|b| - 1].choices);
    }
  }

  lemma Regroup<T>(a: seq<T>, b: seq<T>, c: seq<T>)
    ensures a + (b + c) == (a + b) + c
  {}

  /** A stream gives a reply exactly if it does not break and every text delta got out; the reply's text
      is then all that was forwarded. Otherwise what got out is a beginning. */
  lemma ForwardedMeans(stream: Stream)
    ensures Forwarded(stream) <= Tokens(Choices(stream.responses))
    ensures Fails(stream) <==> stream.broken || Forwarded(stream) != Tokens(Choices(stream.responses))
    ensures Forwarded(stream) != Tokens(Choices(stream.responses)) ==> stream.cut == Some(|Forwarded(stream)|)
    ensures stream.cut.Some? ==> |Forwarded(stream)| <= stream.cut.value
    ensures !Fails(stream) ==> ReplyOf(stream.responses).content == Text(Forwarded(stream))
  {}

  method RunOne(stream: Stream) returns (reply: Option<Reply>, tokens: seq<string>)
    ensures tokens == Forwarded(stream)
    ensures reply == if Fails(stream) then None else Some(ReplyOf(stream.responses))
  {
    var p, usage := Partial("", "", map[], []), Usage(0, 0);
    ghost var rs := stream.responses;
    for i := 0 to |stream.responses|
      invariant p == Seen(Choices(rs[..i])) && WithinCut(p, stream.cut) && usage == LastUsage(rs[..i])
    {
      var resp := stream.responses[i];
      assert rs[..i + 1][..i] == rs[..i];
      if resp.usage.Some? { usage := resp.usage.value; }
      var gone;
      p, gone := TakeChoices(p, Choices(rs[..i]), resp.choices, stream.cut);
      if gone {
        ChoicesConcat(rs[..i + 1], rs[i + 1..]);
        assert rs[..i + 1] + rs[i + 1..] == rs;
        CutStays(p.tokens, stream.cut, Choices(rs[..i + 1]), Choices(rs[i + 1..]));
        return None, p.tokens;
      }
    }
    assert rs[..|rs|] == rs;
    if stream.broken { return None, p.tokens; }
    var calls := Gather(p.byIdx);
    return Some(Reply(p.content, calls, usage, p.finish)), p.tokens;
  }
}
