/** No byte of an accepted frame is invented, repeated or moved: whatever the stream of reads, the frames
    received, written out one after another, are a subsequence of it. */
module Provenance {
  import opened Bytes
  import opened Crc
  import opened FrameMachine
  import opened Framing

  /** `a` can be had from `b` by leaving characters out. */
  predicate Within(a: seq<byte>, b: seq<byte>)
    decreases |b|
  {
    || a == []
    || (b != [] && Within(a, b[..|b| - 1]))
    || (b != [] && a[|a| - 1] == b[|b| - 1] && Within(a[..|a| - 1], b[..|b| - 1]))
  }

  lemma WithinSkip(a: seq<byte>, b: seq<byte>, x: byte)
    requires Within(a, b)
    ensures Within(a, b + [x])
  {
    assert (b + [x])[..|b|] == b;
  }

  lemma WithinTake(a: seq<byte>, b: seq<byte>, x: byte)
    requires Within(a, b)
    ensures Within(a + [x], b + [x])
  {
    assert (b + [x])[..|b|] == b && (a + [x])[..|a|] == a;
  }

  lemma {:induction false} WithinShorter(a: seq<byte>, n: nat, b: seq<byte>)
    requires n <= |a| && Within(a, b)
    ensures Within(a[..n], b)
    decreases |b|
  {
    if n < |a| && a != [] {
      var c := b[..|b| - 1];
      if Within(a, c) {
        WithinShorter(a, n, c);
      } else {
        WithinShorter(a[..|a| - 1], n, c);
        assert a[..|a| - 1][..n] == a[..n];
      }
    } else {
      assert a[..n] == a;
    }
  }

  // ---------------------------------------------------------------- transcripts

  function Partial(p: Phase): seq<byte> {
    match p
    case Idle => []
    case Length => [DOLLAR]
    case Payload(len, data) => Covered(len, data)
    case Check(len, data, first) => Covered(len, data) + (if first.Some? then [first.value] else [])
  }

  function Wires(log: seq<Frame>): seq<byte> {
    if log == [] then [] else Wires(log[..|log| - 1]) + Wire(log[|log| - 1])
  }

  /** The frames received, to the last byte of the one under way. */
  function Transcript(s: State): seq<byte> {
    Wires(s.log) + (if s.exit == Fault then [] else Partial(s.phase))
  }

  function BytesRead(events: seq<Event>): seq<byte> {
    if events == [] then []
    else
      var e := events[|events| - 1];
      BytesRead(events[..|events| - 1]) + (if e.Read? then [e.ch] else [])
  }

  /** How one byte changes a transcript: it is appended, or skipped, or the transcript is cut back. */
  predicate Extends(before: seq<byte>, after: seq<byte>, ch: byte) {
    after == before + [ch] || after <= before
  }

  lemma WiresOne(log: seq<Frame>, f: Frame)
    ensures Wires(log + [f]) == Wires(log) + Wire(f)
  {
    hide Wire;
    assert (log + [f])[..|log|] == log;
  }

  lemma JudgeExtends(s: State, f: Frame, ok: bool)
    requires s.exit == Running
    ensures Extends(Wires(s.log) + (Covered(f.len, f.payload) + [f.lo]), Transcript(Judge(s, f, ok)), f.hi)
  {
    hide Matches, Filter, Covered;
    var t := Judge(s, f, ok);
    var c := Covered(f.len, f.payload);
    WiresOne(s.log, f);
    hide Wires;
    assert Wire(f) == (c + [f.lo]) + [f.hi];
    assert t.log == s.log || t.log == s.log + [f];
    assert t.exit == Fault || t.phase == Idle;
    var w := Wires(s.log);
    assert w + ((c + [f.lo]) + [f.hi]) + [] == (w + (c + [f.lo])) + [f.hi];
    assert w + [] <= w + (c + [f.lo]);
  }

  lemma StoreExtends(s: State, len: byte, data: seq<byte>, ch: byte)
    requires s.exit == Running && s.phase == Payload(len, data)
    ensures Extends(Transcript(s), Transcript(Store(s, len, data, ch)), ch)
  {
    hide Wires, Value;
    var w := Wires(s.log);
    assert Covered(len, data + [ch]) == Covered(len, data) + [ch];
    assert w + (Covered(len, data) + [ch]) == (w + Covered(len, data)) + [ch];
    assert Covered(len, data + [ch]) + [] == Covered(len, data + [ch]);
    assert w + [] <= w + Covered(len, data);
  }

  lemma InPhaseExtends(s: State, ch: byte, ok: bool)
    requires s.exit == Running
    ensures Extends(Transcript(s), Transcript(InPhase(s, ch, ok)), ch)
  {
    hide Judge, Store, Wires;
    var w := Wires(s.log);
    match s.phase {
      case Check(len, data, first) =>
        var t := s.(newline := s.newline || LineEnd(ch));
        if first.Some? {
          JudgeExtends(t, Frame(len, data, first.value, ch), ok);
        } else {
          assert w + (Covered(len, data) + [ch]) == (w + (Covered(len, data) + [])) + [ch];
        }
      case Payload(len, data) =>
        if ch == QUESTION {
          assert w + Covered(len, []) <= w + Covered(len, data);
          assert w + [] <= w + Covered(len, data);
        } else if ch != DOLLAR {
          StoreExtends(Marks(s, ch), len, data, ch);
        }
      case Length =>
        assert Covered(ch, []) == [DOLLAR] + [ch];
        assert w + ([DOLLAR] + [ch]) == (w + [DOLLAR]) + [ch];
      case Idle =>
        assert w + [DOLLAR] == (w + []) + [DOLLAR];
    }
  }

  lemma StepExtends(s: State, ch: byte, ok: bool)
    ensures Extends(Transcript(s), Transcript(Step(s, Read(ch, ok))), ch)
  {
    hide InPhase, Wires;
    if s.exit == Running {
      var t := if s.asked then s else s.(tries := s.tries + 1);
      InPhaseExtends(t.(hashes := if ch == HASH then t.hashes + 1 else 0), ch, ok);
    }
  }

  lemma ExtendsWithin(before: seq<byte>, after: seq<byte>, ch: byte, all: seq<byte>)
    requires Within(before, all) && Extends(before, after, ch)
    ensures Within(after, all + [ch])
  {
    hide Within;
    if after == before + [ch] {
      WithinTake(before, all, ch);
    } else {
      assert before[..|after|] == after;
      WithinShorter(before, |after|, all);
      WithinSkip(after, all, ch);
    }
  }

  /** Over every stream of reads, from the start of a call. */
  lemma {:induction false} FramesWereReceived(asks: bool, events: seq<Event>)
    ensures Within(Transcript(Run(Written(START, ASK, asks), events)), BytesRead(events))
  {
    hide Step, Within;
    var start := Written(START, ASK, asks);
    if events == [] {
      NothingYet(asks);
    } else {
      var n := |events| - 1;
      FramesWereReceived(asks, events[..n]);
      var s := Run(start, events[..n]);
      match events[n] {
        case Read(ch, ok) =>
          StepExtends(s, ch, ok);
          ExtendsWithin(Transcript(s), Transcript(Step(s, Read(ch, ok))), ch, BytesRead(events[..n]));
        case ReadFailed =>
          FailedReadKeeps(s);
          assert Run(start, events) == Step(s, ReadFailed);
          assert BytesRead(events) == BytesRead(events[..n]) + [] == BytesRead(events[..n]);
      }
    }
  }

  lemma NothingYet(asks: bool)
    ensures Within(Transcript(Written(START, ASK, asks)), [])
  {
    assert Transcript(Written(START, ASK, asks)) == [];
  }

  lemma FailedReadKeeps(s: State)
    ensures Transcript(Step(s, ReadFailed)) == Transcript(s)
  {
    hide Wires;
  }
}
