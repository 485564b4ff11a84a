/** Every list of frames, good or refused, with or without end marks: which of them are answered, what is
    written, what stays pending, and how the call ends. */
module Streams {
  import opened Bytes
  import opened FrameMachine
  import opened ReceiverSafety
  import opened Framing
  import opened Sequences

  predicate AllSendable(xs: seq<Sending>) {
    forall i :: 0 <= i < |xs| ==> Sendable(xs[i])
  }

  /** The passes of the loop that the list takes. */
  function Arrivals(xs: seq<Sending>): seq<Event>
    requires AllSendable(xs)
  {
    if xs == [] then [] else Arrival(xs[0]) + Arrivals(xs[1..])
  }

  function Frames(xs: seq<Sending>): seq<Frame> {
    if xs == [] then [] else [xs[0].frame] + Frames(xs[1..])
  }

  /** One answer for each frame whose answer gets through, in order. */
  function Answers(xs: seq<Sending>): seq<byte> {
    if xs == [] then [] else Answer(xs[0].frame, xs[0].heard) + Answers(xs[1..])
  }

  /** The payloads of the good frames, in order. */
  function GoodPayloads(xs: seq<Sending>): seq<byte> {
    if xs == [] then [] else (if xs[0].frame.Good() then xs[0].frame.payload else []) + GoodPayloads(xs[1..])
  }

  // ---------------------------------------------------------------- how far the call gets

  /** The frame that ends the call: good, and with an end mark in it or before it. */
  predicate Closes(ended: bool, x: Sending) {
    x.frame.Good() && (ended || MarksEnd(x.frame))
  }

  /** The frames received before the call ends: up to the first good one at or after the first end mark. */
  function Met(ended: bool, xs: seq<Sending>): seq<Sending>
    decreases |xs|
  {
    if xs == [] then []
    else [xs[0]] + (if Closes(ended, xs[0]) then [] else Met(ended || MarksEnd(xs[0].frame), xs[1..]))
  }

  predicate Ends(ended: bool, xs: seq<Sending>)
    decreases |xs|
  {
    xs != [] && (Closes(ended, xs[0]) || Ends(ended || MarksEnd(xs[0].frame), xs[1..]))
  }

  predicate AnyEnd(xs: seq<Sending>) {
    exists i :: 0 <= i < |xs| && MarksEnd(xs[i].frame)
  }

  lemma AnyEndFirst(xs: seq<Sending>)
    requires xs != []
    ensures AnyEnd(xs) <==> MarksEnd(xs[0].frame) || AnyEnd(xs[1..])
  {
    hide MarksEnd;
    if i :| 0 <= i < |xs| && MarksEnd(xs[i].frame) {
      if i > 0 {
        assert xs[1..][i - 1] == xs[i];
      }
    }
    if i :| 0 <= i < |xs[1..]| && MarksEnd(xs[1..][i].frame) {
      assert xs[i + 1] == xs[1..][i];
    }
  }

  /** Frame `i` is good, and an end mark lies in it or before it. */
  predicate ClosesAt(ended: bool, xs: seq<Sending>, i: nat) {
    i < |xs| && xs[i].frame.Good() && (ended || AnyEnd(xs[..i + 1]))
  }

  lemma ClosesAtNext(ended: bool, xs: seq<Sending>, i: nat)
    requires i < |xs|
    ensures ClosesAt(ended, xs, i) <==>
      if i == 0 then Closes(ended, xs[0]) else ClosesAt(ended || MarksEnd(xs[0].frame), xs[1..], i - 1)
  {
    AnyEndFirst(xs[..i + 1]);
    assert xs[..i + 1][1..] == xs[1..][..i];
    hide MarksEnd, Frame.Good;
    assert i == 0 ==> !AnyEnd(xs[1..][..i]);
  }

  lemma NextMet(ended: bool, xs: seq<Sending>)
    requires xs != []
    ensures var now, rest := ended || MarksEnd(xs[0].frame), xs[1..];
      if Closes(ended, xs[0]) then Ends(ended, xs) && |Met(ended, xs)| == 1 && Met(ended, xs) <= xs
      else
        && (Ends(ended, xs) <==> Ends(now, rest))
        && |Met(ended, xs)| == 1 + |Met(now, rest)|
        && (Met(now, rest) <= rest ==> Met(ended, xs) <= xs)
        && (Met(now, rest) == rest ==> Met(ended, xs) == xs)
  {
    hide MarksEnd, Closes;
    assert xs == [xs[0]] + xs[1..];
  }

  lemma {:induction false} MetCloses(ended: bool, xs: seq<Sending>)
    ensures Met(ended, xs) <= xs
    ensures if Ends(ended, xs) then Met(ended, xs) != [] && ClosesAt(ended, xs, |Met(ended, xs)| - 1)
            else Met(ended, xs) == xs
    decreases |xs|
  {
    if xs != [] {
      hide MarksEnd, Closes, ClosesAt, Met, Ends;
      NextMet(ended, xs);
      MetCloses(ended || MarksEnd(xs[0].frame), xs[1..]);
      if Ends(ended, xs) {
        ClosesAtNext(ended, xs, |Met(ended, xs)| - 1);
      }
    }
  }

  lemma {:induction false} NoneClosesBefore(ended: bool, xs: seq<Sending>, i: nat)
    requires i + 1 < |Met(ended, xs)| || !Ends(ended, xs)
    ensures !ClosesAt(ended, xs, i)
    decreases i
  {
    if i < |xs| {
      hide MarksEnd, Closes, ClosesAt, Met, Ends;
      NextMet(ended, xs);
      ClosesAtNext(ended, xs, i);
      if i > 0 {
        NoneClosesBefore(ended || MarksEnd(xs[0].frame), xs[1..], i - 1);
      }
    }
  }

  /** The call ends with the first good frame at or after the first end mark, if there is one. */
  lemma MetIs(ended: bool, xs: seq<Sending>)
    ensures if Ends(ended, xs) then
              && Met(ended, xs) != [] && Met(ended, xs) <= xs && ClosesAt(ended, xs, |Met(ended, xs)| - 1)
              && forall i: nat :: i + 1 < |Met(ended, xs)| ==> !ClosesAt(ended, xs, i)
            else Met(ended, xs) == xs && forall i: nat :: !ClosesAt(ended, xs, i)
  {
    hide Met, Ends, ClosesAt;
    MetCloses(ended, xs);
    forall i: nat | i + 1 < |Met(ended, xs)| || !Ends(ended, xs)
      ensures !ClosesAt(ended, xs, i)
    {
      NoneClosesBefore(ended, xs, i);
    }
  }

  // ---------------------------------------------------------------- what is written and what stays

  /** Payload characters taken to the files, before the filter, and those still pending. */
  datatype Ledger = Ledger(filed: seq<byte>, pending: seq<byte>)

  function Booked(b: Ledger, line: bool, ended: bool, xs: seq<Sending>): Ledger
    decreases |xs|
  {
    if xs == [] then b
    else
      var f := xs[0].frame;
      var kept := b.pending + f.payload;
      var now := line || MarksLine(f);
      if !f.Good() then Booked(b, now, ended || MarksEnd(f), xs[1..])
      else if Closes(ended, xs[0]) then b.(pending := kept)
      else if now then Booked(Ledger(b.filed + kept, []), false, ended, xs[1..])
      else Booked(b.(pending := kept), false, ended, xs[1..])
  }

  /** The pending record never outgrows its buffer. */
  predicate Fits(pending: nat, line: bool, ended: bool, xs: seq<Sending>)
    decreases |xs|
  {
    xs == [] ||
    var f := xs[0].frame;
    var now := line || MarksLine(f);
    if !f.Good() then Fits(pending, now, ended || MarksEnd(f), xs[1..])
    else
      && pending + |f.payload| <= BUFFER
      && (Closes(ended, xs[0]) || Fits(if now then 0 else pending + |f.payload|, false, ended, xs[1..]))
  }

  /** Nothing is lost, repeated or moved between what is written and what is pending. */
  lemma {:induction false} BookedConserves(b: Ledger, line: bool, ended: bool, xs: seq<Sending>)
    ensures Booked(b, line, ended, xs).filed + Booked(b, line, ended, xs).pending
         == b.filed + b.pending + GoodPayloads(Met(ended, xs))
    decreases |xs|
  {
    hide MarksLine, MarksEnd, Frame.Good;
    if xs == [] {
      NothingAdded(b.filed + b.pending);
    } else {
      var x, rest := xs[0], xs[1..];
      var f, now := x.frame, ended || MarksEnd(x.frame);
      var more := if Closes(ended, x) then [] else Met(now, rest);
      assert ([x] + more)[1..] == more;
      var kept := b.pending + f.payload;
      Reassociate(b.filed, b.pending, f.payload);
      if !f.Good() {
        BookedConserves(b, line || MarksLine(f), now, rest);
        NothingAdded(GoodPayloads(more));
      } else if Closes(ended, x) {
        NothingAdded(f.payload);
      } else {
        BookedConserves(Ledger(b.filed + kept, []), false, ended, rest);
        BookedConserves(b.(pending := kept), false, ended, rest);
        NothingAdded(b.filed + kept);
        Reassociate(b.filed + b.pending, f.payload, GoodPayloads(more));
      }
    }
  }

  /** The books after a frame that does not end the call. */
  function Entered(b: Ledger, line: bool, f: Frame): Ledger {
    if !f.Good() then b
    else if line || MarksLine(f) then Ledger(b.filed + (b.pending + f.payload), [])
    else b.(pending := b.pending + f.payload)
  }

  /** The books, past a first frame that does not end the call. */
  lemma NextBooks(b: Ledger, line: bool, ended: bool, xs: seq<Sending>)
    requires xs != [] && !Closes(ended, xs[0])
    ensures var f, rest, c := xs[0].frame, xs[1..], Entered(b, line, xs[0].frame);
      var now, line' := ended || MarksEnd(f), !f.Good() && (line || MarksLine(f));
      && Met(ended, xs) == [xs[0]] + Met(now, rest)
      && (Ends(ended, xs) <==> Ends(now, rest))
      && Booked(b, line, ended, xs) == Booked(c, line', now, rest)
      && (Fits(|b.pending|, line, ended, xs) <==>
          (f.Good() ==> |b.pending| + |f.payload| <= BUFFER) && Fits(|c.pending|, line', now, rest))
  {
    hide MarksLine, MarksEnd, Frame.Good;
  }

  /** The books `c` are the books `d` with the payload of the frame added to what is pending. */
  predicate OnlyPending(d: Ledger, f: Frame, c: Ledger) {
    c.filed == d.filed && c.pending == d.pending + f.payload
  }

  /** The frame that ends the call writes nothing, whatever comes behind it: what was pending after the frames
      `xs` before it stays pending, with its payload added. */
  lemma {:induction false} EndWritesNothing(b: Ledger, line: bool, ended: bool, xs: seq<Sending>, more: seq<Sending>)
    requires !Ends(ended, xs) && more != [] && Closes(ended || AnyEnd(xs), more[0])
    ensures OnlyPending(Booked(b, line, ended, xs), more[0].frame, Booked(b, line, ended, xs + more))
    decreases |xs|
  {
    TailOf(xs, more);
    if xs == [] {
      NoEnd();
      NothingAdded(more);
      LastBooks(b, line, ended, more);
    } else {
      var f, rest := xs[0].frame, xs[1..];
      AnyEndFirst(xs);
      hide MarksLine, MarksEnd, AnyEnd, Frame.Good, Booked, Fits, Entered, Closes, OnlyPending;
      NextBooks(b, line, ended, xs);
      NextBooks(b, line, ended, xs + more);
      EndWritesNothing(Entered(b, line, f), !f.Good() && (line || MarksLine(f)), ended || MarksEnd(f), rest, more);
    }
  }

  lemma NoEnd()
    ensures !AnyEnd([])
  {
  }

  lemma LastBooks(b: Ledger, line: bool, ended: bool, xs: seq<Sending>)
    requires xs != [] && Closes(ended, xs[0])
    ensures OnlyPending(Booked(b, line, ended, []), xs[0].frame, Booked(b, line, ended, xs))
  {
    hide MarksLine, MarksEnd, Frame.Good;
  }

  // ---------------------------------------------------------------- the receiver on a list

  lemma FilterTwice(file: seq<byte>, filed: seq<byte>, kept: seq<byte>)
    ensures file + Filter(filed + kept) == file + Filter(filed) + Filter(kept)
  {
    FilterAppend(filed, kept);
    hide Filter;
    Reassociate(file, Filter(filed), Filter(kept));
  }

  /** `t` is `s` after the frames that the call meets, with the books at `b` before them. */
  ghost predicate After(s: State, file: seq<byte>, b: Ledger, xs: seq<Sending>, t: State)
    requires AllSendable(xs)
  {
    var met, c := Met(s.ended, xs), Booked(b, s.newline, s.ended, xs);
    if !Fits(|s.pending|, s.newline, s.ended, xs) then t.exit == Fault
    else
      && t.log == s.log + Frames(met) && t.tx == s.tx + Answers(met)
      && t.file == file + Filter(c.filed) && t.pending == c.pending
      && (if Ends(s.ended, xs) then t.exit == EndOfRecord else Between(t) && t.ended == (s.ended || AnyEnd(xs)))
  }

  lemma AfterNone(s: State, file: seq<byte>, b: Ledger)
    requires Between(s) && b.pending == s.pending && s.file == file + Filter(b.filed)
    ensures After(s, file, b, [], s)
  {
    hide Filter;
    NothingAdded(s.log);
    NothingAdded(s.tx);
  }

  /** The first frame ends the call or overruns the buffer. */
  lemma AfterLast(s: State, file: seq<byte>, b: Ledger, xs: seq<Sending>, u: State)
    requires AllSendable(xs) && xs != [] && Between(s) && b.pending == s.pending && s.file == file + Filter(b.filed)
    requires u == FrameStep(s, xs[0].frame, xs[0].heard) && u.exit != Running
    ensures After(s, file, b, xs, u)
  {
    var x := xs[0];
    FrameEffect(s, x.frame, x.heard);
    hide FrameStep, Filter, MarksLine, MarksEnd, Frame.Good, Admissible, Answer;
    assert [x] + [] == [x] && [x][1..] == [];
    assert Frames([x]) == [x.frame] + Frames([]) == [x.frame];
    assert Answers([x]) == Answer(x.frame, x.heard) + Answers([]);
    NothingAdded(Answer(x.frame, x.heard));
  }

  lemma AfterMore(s: State, file: seq<byte>, b: Ledger, xs: seq<Sending>, u: State, t: State)
    requires AllSendable(xs) && xs != [] && Between(s) && b.pending == s.pending
    requires u == FrameStep(s, xs[0].frame, xs[0].heard) && u.exit == Running
    requires AllSendable(xs[1..]) && After(u, file, Entered(b, s.newline, xs[0].frame), xs[1..], t)
    ensures After(s, file, b, xs, t)
  {
    var x, rest := xs[0], xs[1..];
    FrameEffect(s, x.frame, x.heard);
    hide FrameStep, Filter, MarksLine, MarksEnd, AnyEnd, Frame.Good, Admissible, Answer;
    hide Met, Ends, Booked, Fits, Frames, Answers, AllSendable;
    NextBooks(b, s.newline, s.ended, xs);
    AnyEndFirst(xs);
    var more := Met(u.ended, rest);
    FirstOf(x, more);
    Regroup(s.log, x.frame, Frames(more));
    Reassociate(s.tx, Answer(x.frame, x.heard), Answers(more));
  }

  lemma FirstOf(x: Sending, more: seq<Sending>)
    ensures Frames([x] + more) == [x.frame] + Frames(more)
    ensures Answers([x] + more) == Answer(x.frame, x.heard) + Answers(more)
  {
    hide Answer;
    TailOf([x], more);
    assert [x][1..] == [];
    NothingAdded(more);
  }

  lemma EnteredFits(s: State, file: seq<byte>, b: Ledger, f: Frame, heard: bool)
    requires Admissible(f) && Between(s) && b.pending == s.pending && s.file == file + Filter(b.filed)
    requires FrameStep(s, f, heard).exit == Running
    ensures var u, c := FrameStep(s, f, heard), Entered(b, s.newline, f);
      Between(u) && c.pending == u.pending && u.file == file + Filter(c.filed)
  {
    FrameEffect(s, f, heard);
    hide FrameStep, Filter, MarksLine, MarksEnd, Frame.Good, Admissible;
    FilterTwice(file, b.filed, b.pending + f.payload);
  }

  lemma {:induction false} StreamRun(s: State, file: seq<byte>, b: Ledger, xs: seq<Sending>)
    requires AllSendable(xs) && Between(s) && b.pending == s.pending && s.file == file + Filter(b.filed)
    ensures After(s, file, b, xs, Run(s, Arrivals(xs)))
    decreases |xs|
  {
    if xs == [] {
      EmptyRun(s, true);
      AfterNone(s, file, b);
    } else {
      hide Run, FrameStep, After, Arrival, Filter, Entered, Admissible;
      var x, rest := xs[0], xs[1..];
      var u := FrameStep(s, x.frame, x.heard);
      RunAppend(s, Arrival(x), Arrivals(rest));
      FrameDelivered(s, x);
      if u.exit == Running {
        EnteredFits(s, file, b, x.frame, x.heard);
        StreamRun(u, file, Entered(b, s.newline, x.frame), rest);
        AfterMore(s, file, b, xs, u, Run(u, Arrivals(rest)));
      } else {
        StoppedStays(u, [], Arrivals(rest));
        EmptyRun(u, true);
        AfterLast(s, file, b, xs, u);
      }
    }
  }

  /** For every list of frames with right or wrong checks, with or without end marks, with any idle reads
      between their bytes and any answers lost. The call overruns its buffer exactly when the good payloads do
      not fit. Otherwise it meets the frames up to the first good one at or after the first end mark, answers
      each of them in order, and its files and pending data are those of the ledger; it ends there, or, without
      such a frame, is between frames again. */
  lemma StreamDelivered(s: State, xs: seq<Sending>)
    requires Between(s) && AllSendable(xs)
    ensures var t, met := Run(s, Arrivals(xs)), Met(s.ended, xs);
      var c := Booked(Ledger([], s.pending), s.newline, s.ended, xs);
      if !Fits(|s.pending|, s.newline, s.ended, xs) then t.exit == Fault
      else
        && t.log == s.log + Frames(met) && t.tx == s.tx + Answers(met)
        && t.file == s.file + Filter(c.filed) && t.pending == c.pending
        && (if Ends(s.ended, xs) then t.exit == EndOfRecord else Between(t) && t.ended == (s.ended || AnyEnd(xs)))
  {
    EmptyFilter();
    hide Run, Arrivals, Filter, Met, Booked, Fits, Ends;
    NothingAdded(s.file);
    StreamRun(s, s.file, Ledger([], s.pending), xs);
  }

  /** Mixed streams: what is in the files and what is pending, filtered, grow by the payloads of the good
      frames the call meets and by nothing else. */
  lemma MixedStream(s: State, xs: seq<Sending>)
    requires Between(s) && AllSendable(xs) && Fits(|s.pending|, s.newline, s.ended, xs)
    ensures var t, met := Run(s, Arrivals(xs)), Met(s.ended, xs);
      && GoodData(t.log) == GoodData(s.log) + GoodPayloads(met)
      && t.file + Filter(t.pending) == s.file + Filter(s.pending + GoodPayloads(met))
      && t.tx == s.tx + Answers(met)
  {
    hide Run, Arrivals, Filter, Met, Booked, Fits, Ends;
    var met := Met(s.ended, xs);
    var c := Booked(Ledger([], s.pending), s.newline, s.ended, xs);
    StreamDelivered(s, xs);
    GoodDataFrames(s.log, met);
    BookedConserves(Ledger([], s.pending), s.newline, s.ended, xs);
    NothingAdded(s.pending);
    FilterTwice(s.file, c.filed, c.pending);
  }

  lemma {:induction false} GoodDataFrames(log: seq<Frame>, xs: seq<Sending>)
    ensures GoodData(log + Frames(xs)) == GoodData(log) + GoodPayloads(xs)
    decreases |xs|
  {
    hide Frame.Good, GoodData;
    if xs == [] {
      NothingAdded(log);
      NothingAdded(GoodData(log));
    } else {
      var f, rest := xs[0].frame, xs[1..];
      GoodDataOne(log, f);
      GoodDataFrames(log + [f], rest);
      Regroup(log, f, Frames(rest));
      Reassociate(GoodData(log), if f.Good() then f.payload else [], GoodPayloads(rest));
    }
  }

  // ---------------------------------------------------------------- round trip

  predicate Encoded(x: Sending) {
    x.frame == Encode(x.frame.len, x.frame.payload)
  }

  function Payloads(xs: seq<Sending>): seq<byte> {
    if xs == [] then [] else xs[0].frame.payload + Payloads(xs[1..])
  }

  lemma {:induction false} EncodedAreGood(xs: seq<Sending>)
    requires forall i :: 0 <= i < |xs| ==> Encoded(xs[i]) && xs[i].heard
    ensures GoodPayloads(xs) == Payloads(xs)
    ensures Answers(xs) == seq(|xs|, _ => ACK)
    decreases |xs|
  {
    hide Crc.Checksum;
    if xs != [] {
      assert Encoded(xs[0]);
      EncodedAreGood(xs[1..]);
    }
  }

  lemma AllAreMet(xs: seq<Sending>)
    requires !AnyEnd(xs)
    ensures Met(false, xs) == xs && !Ends(false, xs)
  {
    hide MarksEnd;
    MetIs(false, xs);
    EndsWithin(xs, |Met(false, xs)|);
  }

  lemma EndsWithin(xs: seq<Sending>, n: nat)
    requires n <= |xs|
    ensures AnyEnd(xs[..n]) ==> AnyEnd(xs)
  {
    hide MarksEnd;
  }

  /** Round trip: correctly encoded frames without end marks arrive as exactly the concatenation of their
      payloads, with one '*' each. */
  lemma RoundTrip(s: State, xs: seq<Sending>)
    requires Between(s) && !s.ended && AllSendable(xs) && !AnyEnd(xs) && Fits(|s.pending|, s.newline, false, xs)
    requires forall i :: 0 <= i < |xs| ==> Encoded(xs[i]) && xs[i].heard
    ensures var t := Run(s, Arrivals(xs));
      && Between(t)
      && GoodData(t.log) == GoodData(s.log) + Payloads(xs)
      && t.file + Filter(t.pending) == s.file + Filter(s.pending + Payloads(xs))
      && t.tx == s.tx + seq(|xs|, _ => ACK)
  {
    hide Run, Arrivals, Fits, Sendable, Encoded, Filter, AnyEnd;
    EncodedAreGood(xs);
    AllAreMet(xs);
    MixedStream(s, xs);
    StreamDelivered(s, xs);
  }
}
