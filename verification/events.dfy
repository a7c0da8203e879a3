/**
 The bundle_ready fanout (relay/internal/box/events.go). A `Line` is one
 subscription as a value; a run interleaves subscribers, publishers and the
 readers that drain the channels. Class `Events` is the registry that does it
 in place. One call of Publish is one step.
 */
module BoxEvents {

  /** subBufferSize. */
  const SUB_BUFFER := 16

  datatype Event = BundleReady(box: string, version: string, uri: string, hash: string, size: int)

  // ----- subscriptions as values -----

  datatype Line = Line(ns: string, open: bool, buffer: seq<Event>, consumed: seq<Event>) {
    predicate Hears(ns: string) { open && this.ns == ns }

    function Offer(ns: string, e: Event): Line {
      if Hears(ns) && |buffer| < SUB_BUFFER then this.(buffer := buffer + [e]) else this
    }

    function Receive(): Line {
      if buffer == [] then this else this.(buffer := buffer[1..], consumed := consumed + [buffer[0]])
    }
  }

  datatype Action = Subscribe(ns: string) | Unsubscribe(line: nat) | Publish(ns: string, event: Event) | Receive(line: nat)

  function Step(lines: seq<Line>, a: Action): seq<Line> {
    match a
    case Subscribe(ns) => lines + [Line(ns, true, [], [])]
    case Unsubscribe(i) => if i < |lines| then lines[i := lines[i].(open := false)] else lines
    case Publish(ns, e) => seq(|lines|, i requires 0 <= i < |lines| => lines[i].Offer(ns, e))
    case Receive(i) => if i < |lines| then lines[i := lines[i].Receive()] else lines
  }

  function Run(actions: seq<Action>): seq<Line> {
    if actions == [] then [] else Step(Run(actions[..|actions| - 1]), actions[|actions| - 1])
  }

  /** An event published to a line's namespace while it was registered, and how many
      events its channel held at that moment. */
  datatype Offered = Offered(event: Event, buffered: nat)

  /** What action a offers line i: at most one event. */
  function Offer(lines: seq<Line>, a: Action, i: nat): seq<Offered> {
    if a.Publish? && i < |lines| && lines[i].Hears(a.ns) then [Offered(a.event, |lines[i].buffer|)] else []
  }

  function OfferedTo(actions: seq<Action>, i: nat): seq<Offered> {
    if actions == [] then []
    else
      var init := actions[..|actions| - 1];
      OfferedTo(init, i) + Offer(Run(init), actions[|actions| - 1], i)
  }

  /** The offers that found room. */
  function Kept(offers: seq<Offered>): seq<Event> {
    if offers == [] then []
    else
      var last := offers[|offers| - 1];
      Kept(offers[..|offers| - 1]) + if last.buffered < SUB_BUFFER then [last.event] else []
  }

  /** What l's reader has read plus what it can still read is exactly what was kept of the offers. */
  predicate Tallies(l: Line, offers: seq<Offered>) {
    l.consumed + l.buffer == Kept(offers) && |l.buffer| <= SUB_BUFFER
  }

  /** What a subscriber has read plus what it can still read is exactly what it was offered
      at a moment when its channel had room, in that order. */
  lemma {:induction false} ConsumedPlusBuffered(actions: seq<Action>, i: nat)
    ensures i < |Run(actions)| ==> Tallies(Run(actions)[i], OfferedTo(actions, i))
    ensures i >= |Run(actions)| ==> OfferedTo(actions, i) == []
  {
    if actions != [] {
      ConsumedPlusBuffered(actions[..|actions| - 1], i);
      StepTallies(Run(actions[..|actions| - 1]), actions[|actions| - 1], i, OfferedTo(actions[..|actions| - 1], i));
    }
  }

  lemma StepTallies(lines: seq<Line>, a: Action, i: nat, offers: seq<Offered>)
    requires if i < |lines| then Tallies(lines[i], offers) else offers == []
    ensures |Step(lines, a)| >= |lines|
    ensures if i < |Step(lines, a)| then Tallies(Step(lines, a)[i], offers + Offer(lines, a, i))
            else offers + Offer(lines, a, i) == []
  {
    var made := Offer(lines, a, i);
    if made == [] {
      assert offers + made == offers;
    } else {
      assert (offers + made)[..|offers|] == offers;
    }
    if i < |lines| { ReceiveTallies(lines[i], offers); }
  }

  lemma ReceiveTallies(l: Line, offers: seq<Offered>)
    requires Tallies(l, offers)
    ensures Tallies(l.Receive(), offers)
  {
    assert l.buffer != [] ==> l.buffer == [l.buffer[0]] + l.buffer[1..];
  }

  /** The positions of the offers that found room. */
  function Places(offers: seq<Offered>): (at: seq<nat>)
    ensures |at| == |Kept(offers)|
  {
    if offers == [] then []
    else
      var n := |offers| - 1;
      Places(offers[..n]) + if offers[n].buffered < SUB_BUFFER then [n] else []
  }

  /** Kept is a subsequence of the offers: strictly increasing places hold its events. */
  lemma {:induction false} KeptIsSubsequence(offers: seq<Offered>, k: nat)
    requires k < |Kept(offers)|
    ensures var p := Places(offers)[k];
            p < |offers| && Kept(offers)[k] == offers[p].event && offers[p].buffered < SUB_BUFFER
    ensures k > 0 ==> Places(offers)[k - 1] < Places(offers)[k]
  {
    var n := |offers| - 1;
    if k < |Kept(offers[..n])| {
      KeptIsSubsequence(offers[..n], k);
    } else if k > 0 {
      KeptIsSubsequence(offers[..n], k - 1);
    }
  }

  /** An offer is missing from Kept only if the channel was full at that moment. */
  lemma {:induction false} OnlyFullChannelsMiss(offers: seq<Offered>, p: nat) returns (k: nat)
    requires p < |offers| && offers[p].buffered < SUB_BUFFER
    ensures k < |Places(offers)| && Places(offers)[k] == p
  {
    var n := |offers| - 1;
    if p < n {
      k := OnlyFullChannelsMiss(offers[..n], p);
    } else {
      k := |Places(offers)| - 1;
    }
  }

  // ----- the registry -----

  class Subscription {
    const ns: string
    var ch: seq<Event>
    var closed: bool
    ghost var consumed: seq<Event>

    constructor (ns: string)
      ensures View() == Line(ns, true, [], [])
    { this.ns, ch, closed, consumed := ns, [], false, []; }

    ghost function View(): Line reads this { Line(ns, !closed, ch, consumed) }

    method Receive() returns (e: Event)
      requires ch != []
      modifies this`ch, this`consumed
      ensures View() == old(View()).Receive() && e == old(ch)[0]
    {
      e, ch := ch[0], ch[1..];
      consumed := consumed + [e];
    }
  }

  class Events {
    var subs: map<string, set<Subscription>>

    constructor ()
      ensures subs == map[] && Valid()
    { subs := map[]; }

    function Members(ns: string): set<Subscription> reads this { if ns in subs then subs[ns] else {} }

    ghost function All(): set<Subscription> reads this {
      set ns, s | ns in subs && s in subs[ns] :: s
    }

    /** A registered subscription is filed under its own namespace and open. */
    ghost predicate Valid() reads this, All()`closed {
      forall ns :: ns in subs ==> subs[ns] != {} && forall s :: s in subs[ns] ==> s in All() && s.ns == ns && !s.closed
    }

    method Subscribe(ns: string) returns (s: Subscription)
      requires Valid()
      modifies this
      ensures Valid() && fresh(s) && s.View() == Line(ns, true, [], [])
      ensures subs == old(subs)[ns := old(Members(ns)) + {s}]
    {
      s := new Subscription(ns);
      ghost var before := subs;
      subs := subs[ns := Members(ns) + {s}];
      forall n | n in subs
        ensures subs[n] != {} && forall x :: x in subs[n] ==> x in All() && x.ns == n && !x.closed
      {
        forall x | x in subs[n] ensures x in All() && x.ns == n && !x.closed {
          if x != s { assert n in before && x in before[n]; }
        }
      }
    }

    // Idempotent: only the call that finds s registered closes its channel, so a channel
    // is closed exactly when its subscription has left the registry.
    method Unsubscribe(s: Subscription)
      requires Valid()
      modifies this, s`closed
      ensures Valid()
      ensures forall ns :: Members(ns) == old(Members(ns)) - {s}
      ensures s.closed <==> old(s.closed) || s in old(Members(s.ns))
    {
      if s.ns in subs && s in subs[s.ns] {
        var rest := subs[s.ns] - {s};
        ghost var before := subs;
        subs := if rest == {} then map n | n in subs && n != s.ns :: subs[n] else subs[s.ns := rest];
        s.closed := true;
        forall n | n in subs
          ensures subs[n] != {} && forall x :: x in subs[n] ==> x in All() && x.ns == n && !x.closed
        {
          forall x | x in subs[n] ensures x in All() && x.ns == n && !x.closed {
            assert n in before && x in before[n];
          }
        }
      }
    }

    // The number returned is the number of channels that grew; a full channel drops the event.
    method Publish(ns: string, e: Event) returns (delivered: nat)
      requires Valid()
      modifies Members(ns)`ch
      ensures forall s :: s in Members(ns) ==> s.View() == old(s.View()).Offer(ns, e)
      ensures delivered == |set s | s in Members(ns) && s.ch != old(s.ch)|
    {
      var todo := Members(ns);
      ghost var grown: set<Subscription> := {};
      delivered := 0;
      forall s | s in todo ensures s.ns == ns && !s.closed {}
      while todo != {}
        invariant todo <= Members(ns) && grown <= Members(ns) - todo && delivered == |grown|
        invariant forall s :: s in todo ==> s.ch == old(s.ch)
        invariant forall s :: s in Members(ns) - todo ==>
                    if |old(s.ch)| < SUB_BUFFER then s in grown && s.ch == old(s.ch) + [e] else s !in grown && s.ch == old(s.ch)
        decreases todo
      {
        var s :| s in todo;
        todo := todo - {s};
        if |s.ch| < SUB_BUFFER {
          s.ch := s.ch + [e];
          delivered, grown := delivered + 1, grown + {s};
        }
      }
      assert grown == set s | s in Members(ns) && s.ch != old(s.ch);
    }
  }
}
