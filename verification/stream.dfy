/**
 The two Redis-backed stores of the sync path: the sequence counter
 (relay/internal/sequencer/sequencer.go) and the durable log
 (relay/internal/stream/stream.go).  A Redis call either takes effect or fails;
 `ok` parameters stand for the outcome.
 */
module Stream {
  import opened Wire

  /** The messages of a log with a number above `afterSeq`, in log order. */
  function After(log: seq<Message>, afterSeq: int): seq<Message> {
    if log == [] then []
    else
      var init := After(log[..|log| - 1], afterSeq);
      var m := log[|log| - 1];
      if m.seqNo > afterSeq then init + [m] else init
  }

  ghost function Seqs(log: seq<Message>): set<int> {
    set m | m in log :: m.seqNo
  }

  ghost predicate DistinctSeqs(log: seq<Message>) {
    forall i, j :: 0 <= i < j < |log| ==> log[i].seqNo != log[j].seqNo
  }

  /** A replay holds exactly the later messages of the log, each once if the log numbers are distinct. */
  lemma {:induction false} AfterIsTheTail(log: seq<Message>, afterSeq: int)
    ensures forall m :: m in After(log, afterSeq) <==> m in log && m.seqNo > afterSeq
    ensures DistinctSeqs(log) ==> DistinctSeqs(After(log, afterSeq))
  {
    if log != [] {
      var init, m := log[..|log| - 1], log[|log| - 1];
      AfterIsTheTail(init, afterSeq);
      assert log == init + [m];
      if DistinctSeqs(log) {
        var r := After(init, afterSeq);
        forall i | 0 <= i < |r| ensures r[i].seqNo != m.seqNo {
          assert r[i] in init;
        }
      }
    }
  }

  lemma AfterSnoc(log: seq<Message>, m: Message, afterSeq: int)
    ensures After(log + [m], afterSeq) ==
            if m.seqNo > afterSeq then After(log, afterSeq) + [m] else After(log, afterSeq)
  {
    assert (log + [m])[..|log|] == log;
  }

  lemma {:induction false} AfterConcat(a: seq<Message>, b: seq<Message>, afterSeq: int)
    ensures After(a + b, afterSeq) == After(a, afterSeq) + After(b, afterSeq)
  {
    if b == [] {
      assert a + b == a;
    } else {
      AfterConcat(a, b[..|b| - 1], afterSeq);
      AfterSnoc(a + b[..|b| - 1], b[|b| - 1], afterSeq);
      assert a + b == a + b[..|b| - 1] + [b[|b| - 1]];
    }
  }

  /** In log order: a message comes after what is kept of the log before it. */
  lemma TailInOrder(a: seq<Message>, m: Message, b: seq<Message>, afterSeq: int)
    ensures After(a + [m] + b, afterSeq) ==
            After(a, afterSeq) + (if m.seqNo > afterSeq then [m] else []) + After(b, afterSeq)
  {
    AfterConcat(a + [m], b, afterSeq);
    AfterSnoc(a, m, afterSeq);
    assert After(a, afterSeq) + [] == After(a, afterSeq);
  }

  /** A stored stream entry: its payload field decodes to a message, or it does not. */
  datatype Entry = Good(msg: Message) | Unreadable

  function Readable(entries: seq<Entry>): seq<Message> {
    if entries == [] then []
    else
      var init := Readable(entries[..|entries| - 1]);
      match entries[|entries| - 1]
      case Good(m) => init + [m]
      case Unreadable => init
  }

  lemma {:induction false} ReadableConcat(a: seq<Entry>, b: seq<Entry>)
    ensures Readable(a + b) == Readable(a) + Readable(b)
  {
    if b == [] {
      assert a + b == a;
    } else {
      ReadableConcat(a, b[..|b| - 1]);
      assert (a + b)[..|a + b| - 1] == a + b[..|b| - 1];
    }
  }

  /** An unreadable entry is left out, and nothing else. */
  lemma UnreadableIsSkipped(a: seq<Entry>, e: Entry, b: seq<Entry>)
    ensures Readable(a + [e] + b) == Readable(a) + (if e.Good? then [e.msg] else []) + Readable(b)
  {
    ReadableConcat(a + [e], b);
    ReadableConcat(a, [e]);
    assert [e][..0] == [];
  }

  class Sequencer {
    var counters: map<string, int>

    constructor ()
      ensures counters == map[]
    { counters := map[]; }

    function Current(ns: string): int
      reads this
    { if ns in counters then counters[ns] else 0 }

    // INCR: one atomic step.  An empty namespace is refused before Redis is called.
    method Next(ns: string, ok: bool) returns (r: Option<int>)
      modifies this
      ensures ns == "" || !ok ==> r == None && counters == old(counters)
      ensures ns != "" && ok ==>
                r == Some(old(Current(ns)) + 1) && counters == old(counters)[ns := old(Current(ns)) + 1]
      ensures forall other :: other != ns ==> Current(other) == old(Current(other))
      ensures Current(ns) == if r.Some? then r.value else old(Current(ns))
    {
      if ns == "" || !ok { return None; }
      counters := counters[ns := Current(ns) + 1];
      r := Some(counters[ns]);
    }
  }

  class Store {
    var entries: map<string, seq<Entry>>

    constructor ()
      ensures entries == map[]
    { entries := map[]; }

    function Raw(ns: string): seq<Entry>
      reads this
    { if ns in entries then entries[ns] else [] }

    function Log(ns: string): seq<Message>
      reads this
    { Readable(Raw(ns)) }

    // XADD, without the approximate length cap.
    method Append(ns: string, msg: Message, ok: bool) returns (stored: bool)
      modifies this
      ensures stored <==> ns != "" && ok
      ensures !stored ==> entries == old(entries)
      ensures stored ==> Log(ns) == old(Log(ns)) + [msg]
      ensures stored ==> entries == old(entries)[ns := old(Raw(ns)) + [Good(msg)]]
      ensures forall other :: other != ns ==> Log(other) == old(Log(other))
      ensures !stored ==> Log(ns) == old(Log(ns))
    {
      if ns == "" || !ok { return false; }
      ghost var before := Raw(ns);
      entries := entries[ns := Raw(ns) + [Good(msg)]];
      assert Raw(ns)[..|before|] == before;
      stored := true;
    }

    // XRANGE - + followed by a filter in the relay; unreadable entries are skipped.
    method Range(ns: string, afterSeq: int) returns (out: seq<Message>)
      ensures out == After(Log(ns), afterSeq)
    {
      var raw := Raw(ns);
      out := [];
      for i := 0 to |raw|
        invariant out == After(Readable(raw[..i]), afterSeq)
      {
        assert raw[..i + 1][..i] == raw[..i];
        if raw[i].Good? {
          AfterSnoc(Readable(raw[..i]), raw[i].msg, afterSeq);
          if raw[i].msg.seqNo > afterSeq {
            out := out + [raw[i].msg];
          }
        }
      }
      assert raw[..|raw|] == raw;
    }
  }
}
