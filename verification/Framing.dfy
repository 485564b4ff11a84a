/** What one frame of a transmitter does to the receiver, however its bytes are spaced; the prompt before it,
    and the four hashes that throw a record away. */
module Framing {
  import opened Bytes
  import opened Wrappers
  import opened Crc
  import opened FrameMachine
  import opened ReceiverSafety

  /** A frame on the line. `gaps[i]` idle reads come before its byte `i`, for every byte but the two
      check bytes, where an idle read would be taken for a zero check byte. `heard` says whether what the
      receiver writes in the meantime gets through; for a frame received verbatim that is its answer. */
  datatype Sending = Sending(frame: Frame, gaps: seq<nat>, heard: bool)

  function Wire(f: Frame): seq<byte> {
    Covered(f.len, f.payload) + [f.lo, f.hi]
  }

  /** The line holds four hashes in a row, idle reads aside. */
  predicate FourHashes(w: seq<byte>) {
    exists i :: 0 <= i <= |w| - 4 && w[i] == w[i + 1] == w[i + 2] == w[i + 3] == HASH
  }

  /** A frame the receiver reads verbatim. */
  predicate Admissible(f: Frame) {
    && f.payload != []
    && |f.payload| == Value(f.len) - 2
    && AllStorable(f.payload)
    && !FourHashes(Wire(f))
  }

  predicate Spaced(x: Sending) {
    |x.gaps| == |x.frame.payload| + 2
  }

  predicate Sendable(x: Sending) {
    Admissible(x.frame) && Spaced(x)
  }

  function Idles(n: nat): seq<byte> {
    seq(n, _ => 0)
  }

  function PayloadStream(x: Sending, k: nat): seq<byte>
    requires Spaced(x) && k <= |x.frame.payload|
  {
    if k == 0 then [] else PayloadStream(x, k - 1) + (Idles(x.gaps[k + 1]) + [x.frame.payload[k - 1]])
  }

  function Head(x: Sending): seq<byte>
    requires Spaced(x)
  {
    (Idles(x.gaps[0]) + [DOLLAR]) + (Idles(x.gaps[1]) + [x.frame.len])
  }

  function Stream(x: Sending): seq<byte>
    requires Spaced(x)
  {
    Head(x) + PayloadStream(x, |x.frame.payload|) + [x.frame.lo, x.frame.hi]
  }

  function Reads(w: seq<byte>, ok: bool): seq<Event> {
    seq(|w|, i requires 0 <= i < |w| => Read(w[i], ok))
  }

  /** The passes of the loop that the frame takes. */
  function Arrival(x: Sending): seq<Event>
    requires Spaced(x)
  {
    Reads(Stream(x), x.heard)
  }

  lemma ReadsAppend(a: seq<byte>, b: seq<byte>, ok: bool)
    ensures Reads(a + b, ok) == Reads(a, ok) + Reads(b, ok)
  {
  }

  lemma RunReads(s: State, a: seq<byte>, b: seq<byte>, ok: bool)
    ensures Run(s, Reads(a + b, ok)) == Run(Run(s, Reads(a, ok)), Reads(b, ok))
  {
    hide Run, Reads;
    ReadsAppend(a, b, ok);
    RunAppend(s, Reads(a, ok), Reads(b, ok));
  }

  /** A frame in its three parts. */
  lemma RunArrival(s: State, x: Sending)
    requires Spaced(x)
    ensures Run(s, Arrival(x)) ==
      var u := Run(s, Reads(Head(x), x.heard));
      Run(Run(u, Reads(PayloadStream(x, |x.frame.payload|), x.heard)), Reads([x.frame.lo, x.frame.hi], x.heard))
  {
    hide Run, Reads, Head, PayloadStream;
    var body, tail := PayloadStream(x, |x.frame.payload|), [x.frame.lo, x.frame.hi];
    RunReads(s, Head(x) + body, tail, x.heard);
    RunReads(s, Head(x), body, x.heard);
  }

  // ---------------------------------------------------------------- one frame, byte by byte

  predicate Listening(s: State) {
    s.exit == Running && s.asked
  }

  lemma {:induction false} IdleRun(s: State, n: nat, ok: bool)
    requires Listening(s) && !s.phase.Check?
    ensures Run(s, Reads(Idles(n), ok)) == s
  {
    hide InPhase;
    if n > 0 {
      IdleRun(s, n - 1, ok);
      assert Idles(n) == Idles(n - 1) + [0];
      RunReads(s, Idles(n - 1), [0], ok);
      assert Reads([0], ok) == [Read(0, ok)];
      RunOne(s, Read(0, ok));
    }
  }

  /** An idle stretch and then one byte. */
  lemma IdleThen(s: State, n: nat, ch: byte, ok: bool)
    requires Listening(s) && !s.phase.Check?
    ensures Run(s, Reads(Idles(n) + [ch], ok)) == Byte(s, ch, ok)
  {
    hide Run, Byte;
    IdleRun(s, n, ok);
    RunReads(s, Idles(n), [ch], ok);
    OneRead(s, ch, ok);
  }

  lemma OneRead(s: State, ch: byte, ok: bool)
    requires Listening(s)
    ensures Run(s, Reads([ch], ok)) == Byte(s, ch, ok)
  {
    hide Byte;
    assert Reads([ch], ok) == [Read(ch, ok)];
    RunOne(s, Read(ch, ok));
  }

  /** The hashes at the end of `w`. */
  function Trailing(w: seq<byte>): nat {
    if w == [] || w[|w| - 1] != HASH then 0 else 1 + Trailing(w[..|w| - 1])
  }

  lemma {:induction false} TrailingAre(w: seq<byte>)
    ensures Trailing(w) <= |w| && forall i :: |w| - Trailing(w) <= i < |w| ==> w[i] == HASH
  {
    if w != [] && w[|w| - 1] == HASH {
      TrailingAre(w[..|w| - 1]);
    }
  }

  lemma TrailingLarge(w: seq<byte>, k: nat)
    requires k <= |w|
    ensures Trailing(w[..k]) > 3 ==> FourHashes(w)
  {
    TrailingAre(w[..k]);
    if Trailing(w[..k]) > 3 {
      var i := k - 4;
      assert w[i] == w[..k][i] && w[i + 1] == w[..k][i + 1] && w[i + 2] == w[..k][i + 2] && w[i + 3] == w[..k][i + 3];
    }
  }

  /** Without the NULs, which a receiver outside the check bytes takes for idle reads. */
  function Solid(w: seq<byte>): seq<byte> {
    if w == [] then []
    else Solid(w[..|w| - 1]) + (if w[|w| - 1] == 0 then [] else [w[|w| - 1]])
  }

  lemma SolidNext(w: seq<byte>, ch: byte)
    ensures Solid(w + [ch]) == if ch == 0 then Solid(w) else Solid(w) + [ch]
  {
    assert (w + [ch])[..|w|] == w;
  }

  predicate HasLineEnd(w: seq<byte>) {
    exists i :: 0 <= i < |w| && LineEnd(w[i])
  }

  /** The state in which the payload was empty and the bytes `w` had just been counted for hashes, with `data`
      stored since. */
  function Filled(s: State, len: byte, w: seq<byte>, data: seq<byte>): State {
    s.(phase := if data != [] && |data| == Value(len) - 2 then Check(len, data, None) else Payload(len, data),
       hashes := Trailing(w + data),
       ended := s.ended || LETTER_E in data,
       newline := s.newline || HasLineEnd(data))
  }

  lemma TrailingNext(w: seq<byte>, ch: byte)
    ensures Trailing(w + [ch]) == if ch == HASH then 1 + Trailing(w) else 0
  {
    assert (w + [ch])[..|w|] == w;
  }

  lemma MarksNext(w: seq<byte>, ch: byte)
    ensures HasLineEnd(w + [ch]) == (HasLineEnd(w) || LineEnd(ch))
    ensures (LETTER_E in w + [ch]) == (LETTER_E in w || ch == LETTER_E)
  {
    hide LineEnd;
    var v := w + [ch];
    assert v[|w|] == ch;
    assert forall i :: 0 <= i < |w| ==> v[i] == w[i];
  }

  /** One more byte that can be stored. */
  lemma FilledNext(s: State, len: byte, w: seq<byte>, data: seq<byte>, ch: byte, ok: bool)
    requires Listening(s) && Storable(ch) && |data| < Value(len) - 2 && Trailing(w + data + [ch]) <= 3
    ensures Byte(Filled(s, len, w, data), ch, ok) == Filled(s, len, w, data + [ch])
  {
    hide Trailing, HasLineEnd, LineEnd, Judge, Value;
    TrailingNext(w + data, ch);
    assert w + data + [ch] == w + (data + [ch]);
    MarksNext(data, ch);
    ShortLength(len);
  }

  lemma NotFour(w: seq<byte>, k: nat)
    requires k <= |w| && !FourHashes(w)
    ensures Trailing(w[..k]) <= 3
  {
    TrailingLarge(w, k);
  }

  /** What is known of the next payload byte of an admissible frame. */
  lemma NextByte(f: Frame, k: nat)
    requires Admissible(f) && k < |f.payload|
    ensures |f.payload| == Value(f.len) - 2
    ensures Storable(f.payload[k])
    ensures f.payload[..k + 1] == f.payload[..k] + [f.payload[k]]
    ensures Trailing([DOLLAR, f.len] + f.payload[..k] + [f.payload[k]]) <= 3
  {
    hide Value, FourHashes, Storable, Trailing;
    assert Wire(f)[..k + 3] == [DOLLAR, f.len] + f.payload[..k] + [f.payload[k]];
    NotFour(Wire(f), k + 3);
  }

  lemma {:induction false} PayloadRun(s: State, x: Sending, k: nat)
    requires Listening(s) && Sendable(x) && k <= |x.frame.payload|
    ensures Run(Filled(s, x.frame.len, [DOLLAR, x.frame.len], []), Reads(PayloadStream(x, k), x.heard))
         == Filled(s, x.frame.len, [DOLLAR, x.frame.len], x.frame.payload[..k])
  {
    hide Run, Byte, Admissible, Idles, Reads, Storable, FourHashes, Trailing, Value;
    var f, w := x.frame, [DOLLAR, x.frame.len];
    var start := Filled(s, f.len, w, []);
    if k == 0 {
      EmptyRun(start, x.heard);
    } else {
      NextByte(f, k - 1);
      PayloadRun(s, x, k - 1);
      RunReads(start, PayloadStream(x, k - 1), Idles(x.gaps[k + 1]) + [f.payload[k - 1]], x.heard);
      IdleThen(Filled(s, f.len, w, f.payload[..k - 1]), x.gaps[k + 1], f.payload[k - 1], x.heard);
      FilledNext(s, f.len, w, f.payload[..k - 1], f.payload[k - 1], x.heard);
    }
  }

  lemma EmptyRun(s: State, ok: bool)
    ensures Run(s, []) == s && Run(s, Reads([], ok)) == s
  {
  }

  /** Between frames, the prompt answered. */
  predicate Between(s: State) {
    Listening(s) && s.phase == Idle && s.hashes <= 3
  }

  /** Start of frame and length, for any length that leaves room for a payload. */
  lemma HeadRun(s: State, x: Sending)
    requires Between(s) && Spaced(x) && x.frame.len != 0
    ensures Run(s, Reads(Head(x), x.heard))
         == s.(phase := Payload(x.frame.len, []), hashes := Trailing([DOLLAR, x.frame.len]))
  {
    var len, ok := x.frame.len, x.heard;
    RunReads(s, Idles(x.gaps[0]) + [DOLLAR], Idles(x.gaps[1]) + [len], ok);
    IdleThen(s, x.gaps[0], DOLLAR, ok);
    var t := s.(phase := Length, hashes := 0);
    assert Byte(s, DOLLAR, ok) == t;
    IdleThen(t, x.gaps[1], len, ok);
    assert [DOLLAR, len] == [DOLLAR] + [len];
    TrailingNext([], DOLLAR);
    TrailingNext([DOLLAR], len);
    hide Run, Reads, Idles;
  }

  lemma NothingFilled(s: State, len: byte, w: seq<byte>)
    ensures Filled(s, len, w, []) == s.(phase := Payload(len, []), hashes := Trailing(w))
  {
    hide Trailing, HasLineEnd, Value;
    assert w + [] == w;
    NoLineEnd();
  }

  lemma NoLineEnd()
    ensures !HasLineEnd([])
  {
  }

  /** The marks that the bytes of a whole frame set. */
  function FrameMarked(s: State, f: Frame): State {
    s.(hashes := Trailing(Wire(f)),
       ended := s.ended || LETTER_E in f.payload,
       newline := s.newline || HasLineEnd(f.payload + [f.lo, f.hi]))
  }

  /** What the frame leaves behind: the receiver's verdict on it, given those marks. */
  function FrameStep(s: State, f: Frame, ok: bool): State {
    Judge(FrameMarked(s, f), f, ok)
  }

  lemma CheckBytes(w: seq<byte>, f: Frame)
    requires !FourHashes(w + f.payload + [f.lo, f.hi])
    ensures var c := w + f.payload;
      && Trailing(c) <= 3
      && Trailing(c + [f.lo]) == (if f.lo == HASH then 1 + Trailing(c) else 0) <= 3
      && Trailing(c + [f.lo, f.hi]) == (if f.hi == HASH then 1 + Trailing(c + [f.lo]) else 0) <= 3
    ensures HasLineEnd(f.payload + [f.lo, f.hi]) == (HasLineEnd(f.payload) || LineEnd(f.lo) || LineEnd(f.hi))
  {
    hide FourHashes, LineEnd, Trailing;
    var c := w + f.payload;
    var all, n := c + [f.lo, f.hi], |c|;
    assert all[..n] == c && all[..n + 1] == c + [f.lo] && all[..n + 2] == all;
    assert all == c + [f.lo] + [f.hi] && f.payload + [f.lo, f.hi] == f.payload + [f.lo] + [f.hi];
    NotFour(all, n);
    NotFour(all, n + 1);
    NotFour(all, n + 2);
    TrailingNext(c, f.lo);
    TrailingNext(c + [f.lo], f.hi);
    MarksNext(f.payload, f.lo);
    MarksNext(f.payload + [f.lo], f.hi);
  }

  /** The state with the payload of the frame stored behind `w`, and its check bytes counted. */
  function Checked(s: State, w: seq<byte>, f: Frame): State {
    s.(hashes := Trailing(w + f.payload + [f.lo, f.hi]),
       ended := s.ended || LETTER_E in f.payload,
       newline := s.newline || HasLineEnd(f.payload + [f.lo, f.hi]))
  }

  lemma TailRun(s: State, w: seq<byte>, f: Frame, ok: bool)
    requires Listening(s) && f.payload != [] && |f.payload| == Value(f.len) - 2
    requires !FourHashes(w + f.payload + [f.lo, f.hi])
    ensures Run(Filled(s, f.len, w, f.payload), Reads([f.lo, f.hi], ok)) == Judge(Checked(s, w, f), f, ok)
  {
    hide Trailing, HasLineEnd, FourHashes, LineEnd, Judge, Run, Reads, Value;
    var t, c := Filled(s, f.len, w, f.payload), w + f.payload;
    CheckBytes(w, f);
    var u := t.(phase := Check(f.len, f.payload, Some(f.lo)), hashes := Trailing(c + [f.lo]),
                newline := t.newline || LineEnd(f.lo));
    assert [f.lo, f.hi] == [f.lo] + [f.hi];
    RunReads(t, [f.lo], [f.hi], ok);
    OneRead(t, f.lo, ok);
    OneRead(u, f.hi, ok);
    JudgeForgetsPhase(Checked(s, w, f).(phase := u.phase), f, ok);
    JudgeForgetsPhase(Checked(s, w, f), f, ok);
  }

  lemma FrameIsChecked(s: State, f: Frame, ok: bool)
    ensures Judge(Checked(s, [DOLLAR, f.len], f), f, ok) == FrameStep(s, f, ok)
  {
    hide Judge, Trailing, HasLineEnd;
    assert [DOLLAR, f.len] + f.payload + [f.lo, f.hi] == Wire(f);
  }

  lemma AdmissibleWhole(f: Frame)
    requires Admissible(f)
    ensures f.len != 0 && f.payload != [] && |f.payload| == Value(f.len) - 2 && f.payload[..|f.payload|] == f.payload
    ensures !FourHashes([DOLLAR, f.len] + f.payload + [f.lo, f.hi])
  {
    hide FourHashes, AllStorable;
    assert [DOLLAR, f.len] + f.payload + [f.lo, f.hi] == Wire(f);
  }

  /** One frame, however its bytes are spaced, has exactly the effect of its verdict. */
  lemma FrameDelivered(s: State, x: Sending)
    requires Between(s) && Sendable(x)
    ensures Run(s, Arrival(x)) == FrameStep(s, x.frame, x.heard)
  {
    assert x.frame.len != 0;
    hide Run, Reads, Idles, FrameStep, Admissible, Head, PayloadStream, Arrival;
    var f, w := x.frame, [DOLLAR, x.frame.len];
    AdmissibleWhole(f);
    hide FourHashes, Filled, Value;
    RunArrival(s, x);
    HeadRun(s, x);
    NothingFilled(s, f.len, w);
    PayloadRun(s, x, |f.payload|);
    TailRun(s, w, f, x.heard);
    FrameIsChecked(s, f, x.heard);
  }

  predicate MarksLine(f: Frame) {
    HasLineEnd(f.payload + [f.lo, f.hi])
  }

  predicate MarksEnd(f: Frame) {
    LETTER_E in f.payload
  }

  function Answer(f: Frame, heard: bool): seq<byte> {
    if !heard then [] else if f.Good() then [ACK] else [NACK]
  }

  /** The effect of one frame. It is answered by its verdict. A bad one leaves pending data and files as they
      were, but its marks stay. A good one adds its payload to the pending data; then, if an end mark has been
      seen by now, in this frame or in any before it, the call ends with all of that unwritten; otherwise, if a
      line mark has been seen, all of it is written. */
  lemma FrameEffect(s: State, f: Frame, heard: bool)
    requires Between(s) && Admissible(f)
    ensures var t := FrameStep(s, f, heard);
      var line, ended := s.newline || MarksLine(f), s.ended || MarksEnd(f);
      var kept := s.pending + f.payload;
      if f.Good() && |kept| > BUFFER then t.exit == Fault
      else
        && t.log == s.log + [f] && t.tx == s.tx + Answer(f, heard) && t.ended == ended
        && if !f.Good() then Between(t) && t.newline == line && t.pending == s.pending && t.file == s.file
           else if ended then t.exit == EndOfRecord && t.pending == kept && t.file == s.file
           else if line then Between(t) && !t.newline && t.pending == [] && t.file == s.file + Filter(kept)
           else Between(t) && !t.newline && t.pending == kept && t.file == s.file
  {
    AdmissibleWhole(f);
    assert [DOLLAR, f.len] + f.payload + [f.lo, f.hi] == Wire(f);
    hide Matches, Filter, HasLineEnd, Trailing, Admissible, FourHashes;
    CheckBytes([DOLLAR, f.len], f);
  }

  /** A good frame that fits ends the call exactly when an end mark has been seen: in its own payload, or
      before it, be it in a frame that was refused. */
  lemma EndsIff(s: State, x: Sending)
    requires Between(s) && Sendable(x) && x.frame.Good() && |s.pending| + |x.frame.payload| <= BUFFER
    ensures Run(s, Arrival(x)).exit == EndOfRecord <==> s.ended || MarksEnd(x.frame)
  {
    hide Run, Arrival, FrameStep, Filter, MarksLine, MarksEnd, Admissible, Frame.Good;
    FrameDelivered(s, x);
    FrameEffect(s, x.frame, x.heard);
  }

  /** The record with the end mark is acknowledged and written to no file. */
  lemma EndPacketIsNotWritten(s: State, x: Sending)
    requires Between(s) && Sendable(x) && x.frame.Good() && (s.ended || MarksEnd(x.frame))
    requires |s.pending| + |x.frame.payload| <= BUFFER
    ensures var t := Run(s, Arrival(x));
      && t.exit == EndOfRecord && t.tx == s.tx + Answer(x.frame, x.heard)
      && t.file == s.file && t.pending == s.pending + x.frame.payload
  {
    hide Run, Arrival, FrameStep, Filter, MarksLine, MarksEnd, Admissible, Frame.Good, Answer;
    FrameDelivered(s, x);
    FrameEffect(s, x.frame, x.heard);
  }

  /** A call that has read its prompt is between frames, with nothing pending. */
  lemma PromptOpens(asks: bool, idle: nat)
    requires idle < 25
    ensures var s := Run(Written(START, ASK, asks), Reads(Idles(idle) + [0x3F], true));
      Between(s) && !s.ended && !s.newline && s.pending == [] && s.log == []
      && s.tx == (if asks then [0x51] else []) + [0x55]
  {
    var start := Written(START, ASK, asks);
    UnaskedIdles(start, idle);
    RunReads(start, Idles(idle), [QUESTION], true);
    assert Reads([QUESTION], true) == [Read(QUESTION, true)];
    hide Run, Reads, Idles;
    RunOne(start.(tries := start.tries + idle), Read(QUESTION, true));
  }

  lemma {:induction false} UnaskedIdles(s: State, n: nat)
    requires s.exit == Running && !s.asked && s.phase == Idle && s.tries + n <= PATIENCE
    ensures Run(s, Reads(Idles(n), true)) == s.(tries := s.tries + n)
  {
    hide InPhase;
    if n == 0 {
      EmptyRun(s, true);
    } else {
      UnaskedIdles(s, n - 1);
      assert Idles(n) == Idles(n - 1) + [0];
      RunReads(s, Idles(n - 1), [0], true);
      assert Reads([0], true) == [Read(0, true)];
      RunOne(s.(tries := s.tries + n - 1), Read(0, true));
    }
  }

  // ---------------------------------------------------------------- the sender's own encoding

  /** The frame a correct transmitter builds around a payload of length `len` - 2. */
  function Encode(len: byte, payload: seq<byte>): Frame {
    var c := Checksum(Covered(len, payload));
    Frame(len, payload, Low(c), High(c))
  }

  // ---------------------------------------------------------------- four hashes

  /** The characters read, idle reads left out. */
  function Heard(events: seq<Event>): seq<byte> {
    if events == [] then []
    else
      var e := events[|events| - 1];
      Heard(events[..|events| - 1]) + (if e.Read? && e.ch != 0 then [e.ch] else [])
  }

  /** A verdict can only reset the count of hashes. */
  lemma JudgeHashes(s: State, f: Frame, ok: bool)
    requires s.exit == Running
    ensures Judge(s, f, ok).hashes <= s.hashes && Judge(s, f, ok).exit != Discarded
  {
    hide Matches, Filter;
  }

  lemma InPhaseHashes(s: State, ch: byte, ok: bool)
    requires s.exit == Running
    ensures InPhase(s, ch, ok).hashes <= s.hashes && InPhase(s, ch, ok).exit != Discarded
  {
    hide Judge, Value, LineEnd;
    match s.phase {
      case Check(len, data, Some(lo)) =>
        JudgeHashes(s.(newline := s.newline || LineEnd(ch)), Frame(len, data, lo, ch), ok);
      case _ =>
    }
  }

  lemma HashesStep(s: State, ch: byte, ok: bool)
    requires s.exit == Running
    ensures var t := Step(s, Read(ch, ok));
      && (t.exit == Running ==> t.hashes <= (if ch == HASH then s.hashes + 1 else if ch == 0 then s.hashes else 0))
      && (t.exit == Discarded ==> ch == HASH && s.hashes >= 3)
  {
    hide InPhase;
    var t := if s.asked then s else s.(tries := s.tries + 1);
    InPhaseHashes(t.(hashes := if ch == HASH then t.hashes + 1 else 0), ch, ok);
  }

  /** A record is thrown away only once four hashes in a row have been read. */
  lemma {:induction false} DiscardedAfterFourHashes(asks: bool, events: seq<Event>)
    ensures var s := Run(Written(START, ASK, asks), events);
      && (s.exit == Running ==> s.hashes <= Trailing(Heard(events)))
      && (s.exit == Discarded ==> exists n: nat | n <= |events| :: FourHashes(Heard(events[..n])))
  {
    hide Step, FourHashes;
    var start := Written(START, ASK, asks);
    if events != [] {
      var n := |events| - 1;
      DiscardedAfterFourHashes(asks, events[..n]);
      var s, e := Run(start, events[..n]), events[n];
      if s.exit == Running {
        if e.Read? {
          HashesStep(s, e.ch, e.writable);
          TrailingNext(Heard(events[..n]), e.ch);
          assert events[..|events|] == events;
          TrailingLarge(Heard(events), |Heard(events)|);
          assert Heard(events)[..|Heard(events)|] == Heard(events);
        }
        FailedReadStops(s);
      } else {
        StoppedStays(start, events[..n], events);
        forall m: nat | m <= n && FourHashes(Heard(events[..n][..m]))
          ensures FourHashes(Heard(events[..m]))
        {
          assert events[..n][..m] == events[..m];
        }
      }
    }
  }

  lemma FailedReadStops(s: State)
    requires s.exit == Running
    ensures Step(s, ReadFailed).exit == ReadError
  {
  }

  /** Four hashes between frames throw the pending record away and end the call. */
  lemma FourHashesDiscard(s: State, ok: bool)
    requires Between(s)
    ensures var t := Run(s, Reads([0x23, 0x23, 0x23, 0x23], ok));
      t.exit == Discarded && t.pending == [] && t.file == s.file && t.tx == s.tx
  {
    HashesRun(s, 4, ok);
    assert Hashes(4) == [HASH, HASH, HASH, HASH];
  }

  function Hashes(n: nat): seq<byte> {
    seq(n, _ => HASH)
  }

  lemma {:induction false} HashesRun(s: State, n: nat, ok: bool)
    requires Between(s)
    ensures Run(s, Reads(Hashes(n), ok))
         == if s.hashes + n <= 3 then s.(hashes := s.hashes + n) else s.(hashes := 4, pending := [], exit := Discarded)
  {
    hide InPhase;
    if n == 0 {
      EmptyRun(s, ok);
    } else {
      HashesRun(s, n - 1, ok);
      assert Hashes(n) == Hashes(n - 1) + [HASH];
      RunReads(s, Hashes(n - 1), [HASH], ok);
      assert Reads([HASH], ok) == [Read(HASH, ok)];
      var u := Run(s, Reads(Hashes(n - 1), ok));
      hide Run, Reads, Hashes;
      RunOne(u, Read(HASH, ok));
      HashInIdle(s.(hashes := s.hashes + n - 1), ok);
    }
  }

  lemma HashInIdle(s: State, ok: bool)
    requires s.phase == Idle && s.exit == Running
    ensures s.hashes < 3 ==> Byte(s, HASH, ok) == s.(hashes := s.hashes + 1)
  {
  }
}
