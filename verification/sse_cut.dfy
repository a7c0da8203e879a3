/**
 An event stream that breaks off after any number of bytes, also inside a character:
 what the Android client (AISSEClient.kt) has got by then.
 */
module BrokenStream {
  import opened Wire
  import opened Frames
  import opened EventStream

  // ----- the text of a cut stream -----

  /** The length of a character in UTF-8 (section 3 of RFC 3629). */
  function Width(c: char): nat {
    var n := c as int;
    if n < 0x80 then 1 else if n < 0x800 then 2 else if n < 0x1_0000 then 3 else 4
  }

  function Size(s: string): nat { if s == "" then 0 else Width(s[0]) + Size(s[1..]) }

  /** How many characters lie wholly within the first n bytes. */
  function Whole(s: string, n: nat): (k: nat)
    ensures k <= |s|
  {
    if s == "" || Width(s[0]) > n then 0 else 1 + Whole(s[1..], n - Width(s[0]))
  }

  /** What a decoder makes of the bytes of a broken character: replacement characters. */
  predicate Garbled(tail: string) { forall i :: 0 <= i < |tail| ==> tail[i] == '\U{FFFD}' }

  /** The first n bytes of s are read as `got`: the whole characters, and replacements for a broken one. */
  ghost predicate ReadAs(s: string, n: nat, got: string) {
    exists tail :: Garbled(tail) && got == s[..Whole(s, n)] + tail && (Size(s[..Whole(s, n)]) == n ==> tail == "")
  }

  lemma {:induction false} WholeBounds(s: string, n: nat)
    requires n <= Size(s)
    ensures Size(s[..Whole(s, n)]) <= n
    ensures Whole(s, n) < |s| ==> n < Size(s[..Whole(s, n)]) + Width(s[Whole(s, n)])
    ensures Whole(s, n) == |s| ==> Size(s[..Whole(s, n)]) == n
  {
    if s != "" && Width(s[0]) <= n {
      var k := Whole(s[1..], n - Width(s[0]));
      WholeBounds(s[1..], n - Width(s[0]));
      assert s[..k + 1][1..] == s[1..][..k];
      assert s[..|s|] == s && s[1..][..|s| - 1] == s[1..];
    }
  }

  /** A line feed is one byte, so no cut breaks it. */
  lemma NoBrokenLineFeed(s: string, n: nat)
    requires n <= Size(s) && Size(s[..Whole(s, n)]) != n
    ensures Whole(s, n) < |s| && s[Whole(s, n)] != '\n'
  {
    WholeBounds(s, n);
  }

  // ----- what such a text yields -----

  /** Nothing that lacks the end of a marshalled object is an object, broken character or not. */
  ghost predicate Delimited(json: Json) {
    forall o, n, tail :: 0 <= n < |json.render(o)| && Garbled(tail) ==> json.parse(json.render(o)[..n] + tail) == None
  }

  lemma LastLine(a: string)
    requires Clean(a)
    ensures Lines(a) == if a == [] then [] else [a]
  {
    CutAt(a, "");
  }

  lemma OneLineLeft(json: Json, event: string, line: string)
    ensures Client(json, event, [line]) ==
            if FrameIn(json, event, line).Some? then [FrameIn(json, event, line).value] else []
  {
    assert [line][1..] == [];
    assert Client(json, event, [line][1..]) == [];
  }

  lemma CleanPart(s: string, n: nat, tail: string)
    requires Clean(s) && n <= |s| && Garbled(tail)
    ensures Clean(s[..n] + tail)
  {}

  lemma NoData(line: string)
    requires line != "" && line[0] != 'd'
    ensures !StartsWith(line, DATA)
  {
    assert |DATA| <= |line| ==> line[..|DATA|][0] == line[0];
  }

  /** Cut inside the event line: nothing yet. */
  lemma CutInEvent(json: Json, f: Frame, n: nat, tail: string)
    requires Faithful(json) && n <= |EventLine(f)| && Garbled(tail)
    ensures Received(json, EventLine(f)[..n] + tail) == []
  {
    LinesAreClean(json, f);
    CleanPart(EventLine(f), n, tail);
    var part := EventLine(f)[..n] + tail;
    LastLine(part);
    OneLineLeft(json, "message", part);
    if part != "" {
      assert EventLine(f)[0] == 'e';
      NoData(part);
    }
  }

  /** A data line yields its frame once its payload is whole, and nothing before. */
  lemma WholeData(json: Json, f: Frame)
    requires Faithful(json)
    ensures FrameIn(json, EventOf(f), DataLine(json, f)) == Some(Narrow(f))
  {
    var line := DataLine(json, f);
    DecodeOfPayload(f);
    assert line[..|DATA|] == DATA && line[|DATA|..] == json.render(PayloadOf(f)) && line[0] == 'd';
    assert |EVENT| <= |line| ==> line[..|EVENT|][0] == line[0];
    assert json.parse(json.render(PayloadOf(f))) == Some(PayloadOf(f));
  }

  lemma DataPart(json: Json, f: Frame, n: nat, tail: string)
    requires Delimited(json) && n < |DataLine(json, f)| && Garbled(tail)
    ensures FrameIn(json, EventOf(f), DataLine(json, f)[..n] + tail) == None
  {
    var line, part, payload := DataLine(json, f), DataLine(json, f)[..n] + tail, json.render(PayloadOf(f));
    if n >= |DATA| {
      assert part[|DATA|..] == payload[..n - |DATA|] + tail;
    } else {
      assert |DATA| <= |part| ==> part[..|DATA|][n] == tail[0];
    }
  }

  /** Cut inside the data line, or right after it: the frame once its payload is whole. */
  lemma CutInData(json: Json, f: Frame, n: nat, tail: string)
    requires Faithful(json) && Delimited(json) && n <= |DataLine(json, f)| && Garbled(tail)
    requires n == |DataLine(json, f)| ==> tail == ""
    ensures Received(json, EventLine(f) + "\n" + (DataLine(json, f)[..n] + tail)) ==
            if n == |DataLine(json, f)| then [Narrow(f)] else []
  {
    LinesAreClean(json, f);
    CleanPart(DataLine(json, f), n, tail);
    var part := DataLine(json, f)[..n] + tail;
    LineThen(EventLine(f), part);
    LastLine(part);
    EventLineIsRead(json, "message", f, Lines(part));
    OneLineLeft(json, EventOf(f), part);
    if n < |DataLine(json, f)| {
      DataPart(json, f, n, tail);
    } else {
      assert part == DataLine(json, f);
      WholeData(json, f);
    }
  }

  lemma CutAfterData(json: Json, f: Frame)
    requires Faithful(json)
    ensures Received(json, EventLine(f) + "\n" + (DataLine(json, f) + "\n" + "")) == [Narrow(f)]
  {
    LinesAreClean(json, f);
    LineThen(EventLine(f), DataLine(json, f) + "\n" + "");
    LineThen(DataLine(json, f), "");
    EventLineIsRead(json, "message", f, [DataLine(json, f)] + Lines(""));
    DataLineIsRead(json, f, Lines(""));
  }

  /** A cut that leaves a broken character does not fall on a line feed. */
  predicate CutAtTail(s: string, n: nat, tail: string)
    requires n <= |s|
  {
    Garbled(tail) && (tail != "" ==> n < |s| && s[n] != '\n')
  }

  lemma PartialRecord(json: Json, f: Frame, n: nat, tail: string)
    requires Faithful(json) && Delimited(json) && n < |RecordOf(json, f)| && CutAtTail(RecordOf(json, f), n, tail)
    ensures Received(json, RecordOf(json, f)[..n] + tail) in {[], [Narrow(f)]}
  {
    var e, d, r := EventLine(f), DataLine(json, f), RecordOf(json, f);
    assert r == e + "\n" + (d + "\n" + "\n");
    if n <= |e| {
      assert r[..n] == e[..n];
      CutInEvent(json, f, n, tail);
    } else if n <= |e| + 1 + |d| {
      assert r[..n] + tail == e + "\n" + (d[..n - |e| - 1] + tail);
      CutInData(json, f, n - |e| - 1, tail);
    } else {
      assert r[..n] + tail == e + "\n" + (d + "\n" + "");
      CutAfterData(json, f);
    }
  }

  lemma CutOfTwo(a: string, b: string, n: nat, tail: string)
    requires n <= |a| + |b| && CutAtTail(a + b, n, tail)
    ensures n < |a| ==> (a + b)[..n] + tail == a[..n] + tail && CutAtTail(a, n, tail)
    ensures n >= |a| ==> (a + b)[..n] + tail == a + (b[..n - |a|] + tail) && CutAtTail(b, n - |a|, tail)
  {}

  lemma {:induction false} CutGivesPrefix(json: Json, frames: seq<Frame>, n: nat, tail: string)
    requires Faithful(json) && Delimited(json) && n <= |Print(json, frames)| && CutAtTail(Print(json, frames), n, tail)
    ensures Received(json, Print(json, frames)[..n] + tail) <= Expected(frames)
  {
    if frames != [] {
      var r, rest := RecordOf(json, frames[0]), Print(json, frames[1..]);
      CutOfTwo(r, rest, n, tail);
      if n < |r| {
        PartialRecord(json, frames[0], n, tail);
      } else {
        RecordIsRead(json, frames[0], rest[..n - |r|] + tail);
        CutGivesPrefix(json, frames[1..], n - |r|, tail);
      }
    } else {
      assert Print(json, frames)[..n] + tail == "";
    }
  }

  /** A client whose connection breaks after any number of bytes has got a prefix of the frames. */
  lemma TruncationGivesPrefix(json: Json, frames: seq<Frame>, n: nat, got: string)
    requires Faithful(json) && Delimited(json) && n <= Size(Print(json, frames)) && ReadAs(Print(json, frames), n, got)
    ensures Received(json, got) <= Expected(frames)
  {
    var s := Print(json, frames);
    var tail :| Garbled(tail) && got == s[..Whole(s, n)] + tail && (Size(s[..Whole(s, n)]) == n ==> tail == "");
    if tail != "" { NoBrokenLineFeed(s, n); }
    CutGivesPrefix(json, frames, Whole(s, n), tail);
  }
}
