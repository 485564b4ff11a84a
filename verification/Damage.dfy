/** What becomes of a frame damaged behind its length byte: it is refused exactly when the damage leaves only
    bytes that the receiver stores. */
module Damage {
  import opened Bytes
  import opened Crc
  import opened FrameMachine
  import opened ReceiverSafety
  import opened Framing
  import opened ErrorDetection
  import CodeDistance

  /** Any bytes between a length byte and two check bytes, in the number that the length announces. */
  predicate Shaped(f: Frame) {
    f.payload != [] && |f.payload| == Value(f.len) - 2
  }

  /** No four hashes in a row, as the receiver of this frame counts them. */
  predicate Hushed(f: Frame) {
    !FourHashes(if AllStorable(f.payload) then Wire(f) else Solid(Wire(f)))
  }

  // ---------------------------------------------------------------- counting hashes

  lemma {:induction false} SolidPrefix(w: seq<byte>, k: nat)
    requires k <= |w|
    ensures Solid(w[..k]) <= Solid(w)
  {
    if k < |w| {
      var n := |w| - 1;
      SolidPrefix(w[..n], k);
      assert w[..n][..k] == w[..k];
    } else {
      assert w[..k] == w;
    }
  }

  /** The hashes counted after `k` bytes of the frame. */
  function Count(f: Frame, k: nat): nat
    requires k <= |Wire(f)|
  {
    Trailing(Solid(Wire(f)[..k]))
  }

  lemma CountNext(f: Frame, k: nat)
    requires k < |Wire(f)| && !FourHashes(Solid(Wire(f)))
    ensures Count(f, k) <= 3
    ensures var ch := Wire(f)[k];
      Count(f, k + 1) == (if ch == 0 then Count(f, k) else if ch == HASH then Count(f, k) + 1 else 0) <= 3
  {
    hide FourHashes, Wire;
    var w := Wire(f);
    CountSmall(w, k);
    CountSmall(w, k + 1);
    assert w[..k + 1] == w[..k] + [w[k]];
    SolidNext(w[..k], w[k]);
    TrailingNext(Solid(w[..k]), w[k]);
  }

  lemma CountSmall(w: seq<byte>, k: nat)
    requires k <= |w| && !FourHashes(Solid(w))
    ensures Trailing(Solid(w[..k])) <= 3
  {
    hide FourHashes, Trailing;
    SolidPrefix(w, k);
    var n := |Solid(w[..k])|;
    TrailingLarge(Solid(w), n);
    assert Solid(w)[..n] == Solid(w[..k]);
  }

  // ---------------------------------------------------------------- a frame with bytes that are not stored

  /** Nothing was added to what the receiver wrote but answers to prompts. */
  predicate OnlyPrompts(before: seq<byte>, now: seq<byte>) {
    before <= now && forall i :: |before| <= i < |now| ==> now[i] == UPLOAD
  }

  /** No verdict since `s`: data, files and log as they were, and no answer but to prompts. The call is still
      inside the frame, or an answer to a prompt has failed. */
  predicate Unjudged(s: State, t: State, len: byte) {
    && t.pending == s.pending && t.file == s.file && t.log == s.log && OnlyPrompts(s.tx, t.tx)
    && (t.exit == Running ==> t.asked && (t.phase.Payload? || t.phase.Check?) && t.phase.len == len)
    && (t.exit == Running || t.exit == PromptLost)
  }

  /** In the payload, at most `most` bytes stored. */
  predicate Midway(s: State, t: State, len: byte, most: nat, hashes: nat) {
    && Unjudged(s, t, len)
    && (t.exit == Running ==> t.phase.Payload? && |t.phase.data| <= most && t.hashes <= hashes)
  }

  /** One byte that does not complete the payload. */
  lemma MidwayNext(s: State, t: State, len: byte, most: nat, hashes: nat, ch: byte, ok: bool)
    requires Midway(s, t, len, most, hashes) && t.exit == Running
    requires most + 1 < Value(len) - 2 || (most + 1 == Value(len) - 2 && !Storable(ch))
    requires ch == HASH ==> hashes < 3
    ensures Midway(s, Byte(t, ch, ok), len, if Storable(ch) then most + 1 else most,
                   if ch == 0 then hashes else if ch == HASH then hashes + 1 else 0)
  {
    hide LineEnd;
    assert Value(len) <= 255;
    hide Value;
  }

  /** The bytes stored out of the first `k` of the payload, when no prompt makes it start again. */
  function Stored(f: Frame, k: nat): nat
    requires k <= |f.payload|
  {
    if k == 0 then 0 else Stored(f, k - 1) + (if Storable(f.payload[k - 1]) then 1 else 0)
  }

  lemma {:induction false} StoredBound(f: Frame, k: nat)
    requires k <= |f.payload|
    ensures Stored(f, k) <= k
    ensures Stored(f, k) == k ==> forall i :: 0 <= i < k ==> Storable(f.payload[i])
  {
    hide Storable;
    if k > 0 {
      StoredBound(f, k - 1);
    }
  }

  lemma StoppedAt(s: State, w: seq<byte>, ok: bool)
    requires s.exit != Running
    ensures Run(s, Reads(w, ok)) == s
  {
    hide Run, Reads;
    StoppedStays(s, [], Reads(w, ok));
    EmptyRun(s, ok);
  }

  /** The payload of such a frame leaves the receiver short of at least one byte. */
  lemma {:induction false} ShortPayload(s: State, t: State, x: Sending, k: nat)
    requires Spaced(x) && Shaped(x.frame) && !AllStorable(x.frame.payload) && k <= |x.frame.payload|
    requires !FourHashes(Solid(Wire(x.frame)))
    requires t.exit == Running && Midway(s, t, x.frame.len, 0, Count(x.frame, 2))
    ensures Midway(s, Run(t, Reads(PayloadStream(x, k), x.heard)), x.frame.len,
                   Stored(x.frame, k), Count(x.frame, k + 2))
  {
    hide Run, Byte, Reads, Idles, Midway, FourHashes, Count, Value, Storable;
    var f, ok := x.frame, x.heard;
    if k == 0 {
      EmptyRun(t, ok);
    } else {
      ShortPayload(s, t, x, k - 1);
      var u := Run(t, Reads(PayloadStream(x, k - 1), ok));
      var w, ch := Idles(x.gaps[k + 1]) + [f.payload[k - 1]], f.payload[k - 1];
      RunReads(t, PayloadStream(x, k - 1), w, ok);
      CountNext(f, k + 1);
      assert Wire(f)[k + 1] == ch;
      if u.exit == Running {
        StillShort(f, k - 1);
        MidwayListens(s, u, f.len, Stored(f, k - 1), Count(f, k + 1));
        IdleThen(u, x.gaps[k + 1], ch, ok);
        MidwayNext(s, u, f.len, Stored(f, k - 1), Count(f, k + 1), ch, ok);
      } else {
        StoppedAt(u, w, ok);
        MidwayStopped(s, u, f.len, Stored(f, k - 1), Count(f, k + 1), Stored(f, k), Count(f, k + 2));
      }
    }
  }

  lemma MidwayListens(s: State, t: State, len: byte, most: nat, hashes: nat)
    requires Midway(s, t, len, most, hashes) && t.exit == Running
    ensures Listening(t) && t.phase.Payload?
  {
  }

  lemma MidwayStopped(s: State, t: State, len: byte, most: nat, hashes: nat, most': nat, hashes': nat)
    requires Midway(s, t, len, most, hashes) && t.exit != Running
    ensures Midway(s, t, len, most', hashes')
  {
  }

  lemma StillShort(f: Frame, k: nat)
    requires Shaped(f) && !AllStorable(f.payload) && k < |f.payload|
    ensures var most := Stored(f, k);
      most + 1 < Value(f.len) - 2 || (most + 1 == Value(f.len) - 2 && !Storable(f.payload[k]))
  {
    hide Storable, Value;
    StoredBound(f, k);
  }

  /** Waiting for payload, or for the first check byte. */
  predicate Open(t: State, room: nat) {
    (t.phase.Payload? && |t.phase.data| < room) || (t.phase.Check? && t.phase.first.None?)
  }

  lemma FirstTail(s: State, t: State, len: byte, hashes: nat, ch: byte, ok: bool)
    requires Value(len) >= 3 && Midway(s, t, len, Value(len) - 3, hashes) && t.exit == Running
    requires ch == HASH ==> hashes < 3
    ensures var u := Byte(t, ch, ok);
      && Unjudged(s, u, len)
      && (u.exit == Running ==>
            Open(u, Value(len) - 2) && u.hashes <= (if ch == 0 then hashes else if ch == HASH then hashes + 1 else 0))
  {
    hide LineEnd;
    assert Value(len) <= 255;
    hide Value;
  }

  lemma LastTail(s: State, t: State, len: byte, ch: byte, ok: bool)
    requires Unjudged(s, t, len) && t.exit == Running && 3 <= Value(len) && Open(t, Value(len) - 2)
    requires ch == HASH ==> t.hashes < 3
    ensures Unjudged(s, Byte(t, ch, ok), len)
  {
    hide LineEnd;
    assert Value(len) <= 255;
    hide Value;
  }

  lemma MidwayWider(s: State, t: State, len: byte, most: nat, hashes: nat, wider: nat)
    requires Midway(s, t, len, most, hashes) && most <= wider
    ensures Midway(s, t, len, wider, hashes) && Unjudged(s, t, len)
  {
  }

  lemma WireTail(f: Frame)
    ensures var n := |f.payload|;
      |Wire(f)| == n + 4 && Wire(f)[n + 2] == f.lo && Wire(f)[n + 3] == f.hi && [f.lo, f.hi] == [f.lo] + [f.hi]
  {
  }

  /** The two bytes behind a payload that is short. */
  lemma TwoBytes(s: State, t: State, len: byte, hashes: nat, lo: byte, hi: byte, ok: bool)
    requires Value(len) >= 3 && Midway(s, t, len, Value(len) - 3, hashes)
    requires lo == HASH ==> hashes < 3
    requires hi == HASH ==> (if lo == 0 then hashes else if lo == HASH then hashes + 1 else 0) < 3
    ensures Unjudged(s, Run(Run(t, Reads([lo], ok)), Reads([hi], ok)), len)
  {
    hide Run, Reads, Byte, Value, Open, Midway, Unjudged, Storable;
    if t.exit != Running {
      StoppedAt(t, [lo], ok);
      StoppedAt(t, [hi], ok);
      MidwayWider(s, t, len, Value(len) - 3, hashes, Value(len) - 3);
    } else {
      var u := Byte(t, lo, ok);
      MidwayListens(s, t, len, Value(len) - 3, hashes);
      FirstTail(s, t, len, hashes, lo, ok);
      OneRead(t, lo, ok);
      if u.exit == Running {
        LastTail(s, u, len, hi, ok);
        UnjudgedListens(s, u, len);
        OneRead(u, hi, ok);
      } else {
        StoppedAt(u, [hi], ok);
      }
    }
  }

  lemma ShortBy(f: Frame)
    requires Shaped(f) && !AllStorable(f.payload)
    ensures Value(f.len) >= 3 && Stored(f, |f.payload|) <= Value(f.len) - 3
  {
    hide Storable, Value;
    StoredBound(f, |f.payload|);
  }

  lemma ShortTail(s: State, t: State, f: Frame, ok: bool)
    requires Shaped(f) && !AllStorable(f.payload) && !FourHashes(Solid(Wire(f)))
    requires Midway(s, t, f.len, Stored(f, |f.payload|), Count(f, |f.payload| + 2))
    ensures Unjudged(s, Run(t, Reads([f.lo, f.hi], ok)), f.len)
  {
    var n := |f.payload|;
    hide Run, Reads, FourHashes, Count, Value, Wire, Midway, Unjudged, AllStorable, Stored, Solid;
    WireTail(f);
    ShortBy(f);
    RunReads(t, [f.lo], [f.hi], ok);
    CountNext(f, n + 2);
    CountNext(f, n + 3);
    MidwayWider(s, t, f.len, Stored(f, n), Count(f, n + 2), Value(f.len) - 3);
    TwoBytes(s, t, f.len, Count(f, n + 2), f.lo, f.hi, ok);
  }

  lemma UnjudgedListens(s: State, t: State, len: byte)
    requires Unjudged(s, t, len) && t.exit == Running
    ensures Listening(t)
  {
  }

  /** A frame with a byte among its payload that is not stored gets no verdict by its last byte. */
  lemma NotStoredNotJudged(s: State, x: Sending)
    requires Between(s) && Spaced(x) && Shaped(x.frame) && Hushed(x.frame) && !AllStorable(x.frame.payload)
    ensures Unjudged(s, Run(s, Arrival(x)), x.frame.len)
  {
    var f := x.frame;
    assert f.len != 0;
    var t := s.(phase := Payload(f.len, []), hashes := Trailing([DOLLAR, f.len]));
    SolidHead(f);
    assert Midway(s, t, f.len, 0, Count(f, 2));
    hide Run, Reads, Arrival, Head, PayloadStream, Midway, Count, FourHashes, Trailing, Unjudged, Value, AllStorable;
    RunArrival(s, x);
    HeadRun(s, x);
    ShortPayload(s, t, x, |f.payload|);
    ShortTail(s, Run(t, Reads(PayloadStream(x, |f.payload|), x.heard)), f, x.heard);
  }

  lemma SolidHead(f: Frame)
    requires f.len != 0
    ensures Count(f, 2) == Trailing([DOLLAR, f.len])
  {
    hide Trailing;
    var w := Wire(f)[..2];
    assert w == [] + [DOLLAR] + [f.len];
    SolidNext([], DOLLAR);
    SolidNext([] + [DOLLAR], f.len);
    assert [] + [DOLLAR] + [f.len] == [DOLLAR, f.len];
  }

  // ---------------------------------------------------------------- damage

  /** `x` is the frame `f` with the bits of `e` flipped, none of them in `$` or in the length byte. */
  ghost predicate DamagedBehindLength(f: Frame, e: seq<byte>, x: Frame) {
    && |e| == |f.payload| + 4 && x.len == f.len
    && Received(Covered(f.len, f.payload), f.lo, f.hi, e) == Wire(x)
  }

  lemma DamagedIsBad(f: Frame, e: seq<byte>, x: Frame)
    requires f.Good() && DamagedBehindLength(f, e, x) && CodeDistance.Caught(Bits(e))
    ensures !x.Good() && |x.payload| == |f.payload|
  {
    hide CodeDistance.Caught, Bits, Received, Matches;
    var m := Covered(f.len, f.payload);
    CodeDistance.CaughtIsDetected(m, f.lo, f.hi, e);
    SameLength(f, e);
    assert |Wire(x)| == |x.payload| + 4;
    assert Wire(x)[..|x.payload| + 2] == Covered(x.len, x.payload);
  }

  /** A frame hit, behind its length byte, by a burst of at most 16 bits, by an odd number of flipped bits or
      by two of them, and without four hashes in a row. Whatever the damage made of its bytes, nothing is kept.
      It is refused, and the receiver is between frames again, exactly when each byte that the damage leaves in
      the payload is one the receiver stores; otherwise there is no verdict by its last byte. */
  lemma RefusedIff(s: State, f: Frame, e: seq<byte>, x: Sending)
    requires f.Good() && Shaped(f) && CodeDistance.Caught(Bits(e)) && DamagedBehindLength(f, e, x.frame)
    requires Between(s) && Spaced(x) && Hushed(x.frame)
    ensures var t := Run(s, Arrival(x));
      && t.pending == s.pending && t.file == s.file
      && (Between(t) <==> AllStorable(x.frame.payload))
      && (if AllStorable(x.frame.payload)
          then t.log == s.log + [x.frame] && t.tx == s.tx + (if x.heard then [NACK] else [])
          else Unjudged(s, t, x.frame.len))
  {
    hide CodeDistance.Caught, Bits, Received, DamagedBehindLength, Frame.Good;
    DamagedIsBad(f, e, x.frame);
    LengthKept(f, e, x.frame);
    hide Run, Arrival, FourHashes, FrameStep, Filter, MarksLine, MarksEnd, AllStorable;
    if AllStorable(x.frame.payload) {
      FrameDelivered(s, x);
      FrameEffect(s, x.frame, x.heard);
    } else {
      NotStoredNotJudged(s, x);
    }
  }

  lemma SameLength(f: Frame, e: seq<byte>)
    requires |e| == |f.payload| + 4
    ensures |Received(Covered(f.len, f.payload), f.lo, f.hi, e)| == |e|
  {
    XorLength(Covered(f.len, f.payload) + [f.lo, f.hi], e);
  }

  lemma LengthKept(f: Frame, e: seq<byte>, x: Frame)
    requires DamagedBehindLength(f, e, x)
    ensures x.len == f.len
  {
    hide Received;
  }
}
