/** A prompt inside a frame: the payload begins again behind it, as often as it comes. */
module Prompts {
  import opened Bytes
  import opened FrameMachine
  import opened ReceiverSafety
  import opened Framing
  import opened Sequences

  // ---------------------------------------------------------------- payload bytes as they come

  /** Bytes to be stored, with idle reads between them. */
  predicate Plain(v: seq<byte>) {
    forall i :: 0 <= i < |v| ==> v[i] == 0 || Storable(v[i])
  }

  /** Fewer bytes than the payload has, or exactly as many, the last of them at the end. */
  predicate Reaches(v: seq<byte>, len: byte) {
    |Solid(v)| < Value(len) - 2 || (v != [] && v[|v| - 1] != 0 && |Solid(v)| == Value(len) - 2)
  }

  lemma SolidShorter(v: seq<byte>, n: nat, len: byte)
    requires n + 1 == |v| && Reaches(v, len)
    ensures |Solid(v[..n])| < Value(len) - 2
  {
    hide Value;
  }

  lemma OneMore(s: State, len: byte, w: seq<byte>, data: seq<byte>, ch: byte, ok: bool)
    requires Listening(s) && |data| < Value(len) - 2 && (ch == 0 || (Storable(ch) && Trailing(w + data + [ch]) <= 3))
    ensures Byte(Filled(s, len, w, data), ch, ok) == Filled(s, len, w, if ch == 0 then data else data + [ch])
  {
    if ch == 0 {
      hide Trailing, HasLineEnd, InPhase, Value;
    } else {
      hide Byte;
      FilledNext(s, len, w, data, ch, ok);
    }
  }

  lemma {:induction false} PlainRun(s: State, len: byte, w: seq<byte>, v: seq<byte>, ok: bool)
    requires Listening(s) && Plain(v) && !FourHashes(w + Solid(v))
    requires v != [] ==> Reaches(v, len)
    ensures Run(Filled(s, len, w, []), Reads(v, ok)) == Filled(s, len, w, Solid(v))
    decreases |v|
  {
    hide Run, Byte, Reads, Filled, FourHashes, Trailing, Value, Storable;
    var start := Filled(s, len, w, []);
    if v == [] {
      EmptyRun(start, ok);
    } else {
      var n := |v| - 1;
      var before, ch := v[..n], v[n];
      assert v == before + [ch];
      SolidNext(before, ch);
      SolidShorter(v, n, len);
      NotFour(w + Solid(v), |w + Solid(before)|);
      FewerHashes(w, Solid(before), ch, Solid(v));
      PlainRun(s, len, w, before, ok);
      RunReads(start, before, [ch], ok);
      FilledListens(s, len, w, Solid(before));
      OneRead(Filled(s, len, w, Solid(before)), ch, ok);
      OneMore(s, len, w, Solid(before), ch, ok);
    }
  }

  lemma FilledListens(s: State, len: byte, w: seq<byte>, data: seq<byte>)
    requires Listening(s)
    ensures Listening(Filled(s, len, w, data))
  {
    hide Trailing, HasLineEnd, Value;
  }

  lemma FewerHashes(w: seq<byte>, before: seq<byte>, ch: byte, after: seq<byte>)
    requires after == (if ch == 0 then before else before + [ch]) && !FourHashes(w + after)
    ensures !FourHashes(w + before)
    ensures ch != 0 ==> Trailing(w + before + [ch]) <= 3
  {
    hide Trailing;
    var all := w + after;
    assert forall i :: 0 <= i < |w + before| ==> all[i] == (w + before)[i];
    if ch != 0 {
      hide FourHashes;
      assert w + before + [ch] == all == all[..|all|];
      NotFour(all, |all|);
    }
  }

  // ---------------------------------------------------------------- starts that a prompt cuts off

  /** What comes before each prompt: too few bytes to complete the payload, and no four hashes. */
  predicate Starts(len: byte, w: seq<byte>, starts: seq<seq<byte>>) {
    forall i :: 0 <= i < |starts| ==>
      && Plain(starts[i]) && |Solid(starts[i])| < Value(len) - 2
      && !FourHashes((if i == 0 then w else []) + Solid(starts[i]))
  }

  /** Each start with its prompt. */
  function Begun(starts: seq<seq<byte>>): seq<byte> {
    if starts == [] then [] else starts[0] + [0x3F] + Begun(starts[1..])
  }

  /** All their bytes, without the prompts. */
  function Joined(starts: seq<seq<byte>>): seq<byte> {
    if starts == [] then [] else Solid(starts[0]) + Joined(starts[1..])
  }

  function Uploads(n: nat): seq<byte> {
    seq(n, _ => UPLOAD)
  }

  /** What the starts leave behind: an answer to each prompt, and the marks of their bytes. */
  function Restarted(s: State, starts: seq<seq<byte>>): State {
    s.(tx := s.tx + Uploads(|starts|),
       ended := s.ended || LETTER_E in Joined(starts),
       newline := s.newline || HasLineEnd(Joined(starts)))
  }

  lemma LineEndEither(a: seq<byte>, b: seq<byte>)
    ensures HasLineEnd(a + b) == (HasLineEnd(a) || HasLineEnd(b))
    ensures (LETTER_E in a + b) == (LETTER_E in a || LETTER_E in b)
  {
    hide LineEnd;
    var c := a + b;
    assert forall i :: 0 <= i < |a| ==> c[i] == a[i];
    assert forall i :: 0 <= i < |b| ==> c[|a| + i] == b[i];
  }

  /** One prompt: the bytes stored before it are forgotten, their marks are not. */
  lemma Prompted(s: State, len: byte, w: seq<byte>, data: seq<byte>)
    requires Listening(s) && |data| < Value(len) - 2
    ensures Byte(Filled(s, len, w, data), QUESTION, true)
         == Filled(s.(tx := s.tx + [UPLOAD], ended := s.ended || LETTER_E in data,
                      newline := s.newline || HasLineEnd(data)), len, [], [])
  {
    hide HasLineEnd, Value, Trailing;
    NoLineEnd();
    NoHashes();
  }

  lemma NoHashes()
    ensures Trailing([]) == 0 && Trailing([] + []) == 0
  {
    NothingAdded<byte>([]);
  }

  lemma RestartedNext(s: State, starts: seq<seq<byte>>)
    requires starts != []
    ensures var data := Solid(starts[0]);
      Restarted(s.(tx := s.tx + [UPLOAD], ended := s.ended || LETTER_E in data,
                   newline := s.newline || HasLineEnd(data)), starts[1..]) == Restarted(s, starts)
  {
    LineEndEither(Solid(starts[0]), Joined(starts[1..]));
    hide HasLineEnd, Solid;
    assert Uploads(|starts|) == [UPLOAD] + Uploads(|starts| - 1);
    Regroup(s.tx, UPLOAD, Uploads(|starts| - 1));
  }

  lemma StartsRest(len: byte, w: seq<byte>, starts: seq<seq<byte>>)
    requires starts != [] && Starts(len, w, starts)
    ensures Starts(len, [], starts[1..])
  {
    hide FourHashes, Plain, Value, Solid;
    forall i | 1 <= i < |starts|
      ensures [] + Solid(starts[i]) == Solid(starts[i])
    {
    }
  }

  lemma {:induction false} StartsRun(s: State, len: byte, w: seq<byte>, starts: seq<seq<byte>>)
    requires Listening(s) && Starts(len, w, starts)
    ensures Run(Filled(s, len, w, []), Reads(Begun(starts), true))
         == Filled(Restarted(s, starts), len, if starts == [] then w else [], [])
    decreases |starts|
  {
    if starts == [] {
      EmptyRun(Filled(s, len, w, []), true);
      NoLineEnd();
      assert s.tx + Uploads(0) == s.tx;
    } else {
      var first, rest, data := starts[0], starts[1..], Solid(starts[0]);
      assert Plain(first) && |data| < Value(len) - 2 && !FourHashes(w + data);
      assert first != [] ==> Reaches(first, len);
      hide Run, Byte, Reads, Filled, FourHashes, Value, Plain, Reaches, Restarted, Solid, Starts, HasLineEnd;
      StartsRest(len, w, starts);
      var start := Filled(s, len, w, []);
      RunReads(start, first + [QUESTION], Begun(rest), true);
      RunReads(start, first, [QUESTION], true);
      PlainRun(s, len, w, first, true);
      FilledListens(s, len, w, data);
      OneRead(Filled(s, len, w, data), QUESTION, true);
      Prompted(s, len, w, data);
      RestartedNext(s, starts);
      var u := s.(tx := s.tx + [UPLOAD], ended := s.ended || LETTER_E in data,
                  newline := s.newline || HasLineEnd(data));
      StartsRun(u, len, [], rest);
    }
  }

  // ---------------------------------------------------------------- the frame behind them

  lemma {:induction false} TrailingBehind(w: seq<byte>, v: seq<byte>)
    requires Trailing(v) < |v|
    ensures Trailing(w + v) == Trailing(v)
    decreases |v|
  {
    var n := |v| - 1;
    assert (w + v)[..|w + v| - 1] == w + v[..n];
    if v[n] == HASH {
      TrailingBehind(w, v[..n]);
    }
  }

  lemma FourBehind(a: seq<byte>, b: seq<byte>)
    requires FourHashes(b)
    ensures FourHashes(a + b)
  {
    var i :| 0 <= i <= |b| - 4 && b[i] == b[i + 1] == b[i + 2] == b[i + 3] == HASH;
    var c, j := a + b, |a| + i;
    assert c[j] == b[i] && c[j + 1] == b[i + 1] && c[j + 2] == b[i + 2] && c[j + 3] == b[i + 3];
  }

  lemma NotAllHashes(f: Frame)
    requires Admissible(f)
    ensures var v := f.payload + [f.lo, f.hi];
      !FourHashes(v) && (Trailing(v) < |v| || (|v| == 3 && f.len as int == 3))
  {
    var v := f.payload + [f.lo, f.hi];
    assert Wire(f) == [DOLLAR, f.len] + v;
    hide FourHashes;
    if FourHashes(v) {
      FourBehind([DOLLAR, f.len], v);
      assert false;
    }
    assert v[..|v|] == v;
    TrailingLarge(v, |v|);
    TrailingAre(v);
  }

  lemma ThreeHashes(len: byte, v: seq<byte>)
    requires |v| == 3 && len != HASH
    ensures Trailing([DOLLAR, len] + v) == Trailing(v)
  {
    var a, b, c := [DOLLAR, len], [DOLLAR, len] + [v[0]], [DOLLAR, len] + [v[0]] + [v[1]];
    assert v == [] + [v[0]] + [v[1]] + [v[2]];
    assert [DOLLAR, len] + v == c + [v[2]] && [DOLLAR, len] == [DOLLAR] + [len];
    TrailingNext([DOLLAR], len);
    TrailingNext(a, v[0]);
    TrailingNext(b, v[1]);
    TrailingNext(c, v[2]);
    TrailingNext([], v[0]);
    TrailingNext([] + [v[0]], v[1]);
    TrailingNext([] + [v[0]] + [v[1]], v[2]);
  }

  /** The hashes counted at the end of an admissible frame are the same from its payload on. */
  lemma SameHashes(f: Frame)
    requires Admissible(f)
    ensures Trailing([] + f.payload + [f.lo, f.hi]) == Trailing(Wire(f))
    ensures !FourHashes([] + f.payload + [f.lo, f.hi])
  {
    var v := f.payload + [f.lo, f.hi];
    assert [] + f.payload + [f.lo, f.hi] == v && Wire(f) == [DOLLAR, f.len] + v;
    NotAllHashes(f);
    hide Value, Trailing, FourHashes;
    if Trailing(v) < |v| {
      TrailingBehind([DOLLAR, f.len], v);
    } else {
      ThreeHashes(f.len, v);
    }
  }

  lemma SolidPayload(f: Frame)
    requires Admissible(f)
    ensures Plain(f.payload) && Reaches(f.payload, f.len) && Solid(f.payload) == f.payload
  {
    assert f.payload[|f.payload| - 1] != 0;
    SolidAll(f.payload);
    hide FourHashes, Value;
  }

  lemma {:induction false} SolidAll(v: seq<byte>)
    requires forall i :: 0 <= i < |v| ==> v[i] != 0
    ensures Solid(v) == v
  {
    if v != [] {
      SolidAll(v[..|v| - 1]);
    }
  }

  lemma WholeFrame(s: State, w: seq<byte>, f: Frame)
    requires Listening(s) && Admissible(f) && (w == [DOLLAR, f.len] || w == [])
    ensures Run(Filled(s, f.len, w, []), Reads(f.payload + [f.lo, f.hi], true)) == FrameStep(s, f, true)
  {
    SolidPayload(f);
    AdmissibleWhole(f);
    SameHashes(f);
    hide Run, Reads, Filled, FourHashes, Value, Plain, Reaches, Solid, Admissible, Trailing, HasLineEnd;
    assert !FourHashes(w + f.payload + [f.lo, f.hi]);
    NoFourBefore(w + f.payload, [f.lo, f.hi]);
    RunReads(Filled(s, f.len, w, []), f.payload, [f.lo, f.hi], true);
    PlainRun(s, f.len, w, f.payload, true);
    TailRun(s, w, f, true);
    assert [DOLLAR, f.len] + f.payload + [f.lo, f.hi] == Wire(f);
    assert Checked(s, w, f) == FrameMarked(s, f);
  }

  lemma NoFourBefore(a: seq<byte>, b: seq<byte>)
    requires !FourHashes(a + b)
    ensures !FourHashes(a)
  {
    assert forall i :: 0 <= i < |a| ==> (a + b)[i] == a[i];
  }

  /** A frame whose payload a prompt cuts off any number of times, idle reads among the bytes cut off: each
      prompt is answered, the bytes before it are forgotten but for their marks, and the frame that follows the
      last prompt is received as if nothing had come between its length byte and its payload. */
  lemma PromptRestarts(s: State, starts: seq<seq<byte>>, f: Frame)
    requires Between(s) && Admissible(f) && Starts(f.len, [DOLLAR, f.len], starts)
    ensures Run(s, Reads([0x24, f.len] + Begun(starts) + (f.payload + [f.lo, f.hi]), true))
         == FrameStep(Restarted(s, starts), f, true)
  {
    AdmissibleWhole(f);
    hide Run, Reads, Filled, FourHashes, Value, Starts, Begun, Admissible, Restarted, FrameStep;
    var w, tail := [DOLLAR, f.len], f.payload + [f.lo, f.hi];
    RunReads(s, w + Begun(starts), tail, true);
    RunReads(s, w, Begun(starts), true);
    Opened(s, f.len);
    StartsRun(s, f.len, w, starts);
    StillListening(s, starts);
    WholeFrame(Restarted(s, starts), if starts == [] then w else [], f);
  }

  lemma StillListening(s: State, starts: seq<seq<byte>>)
    requires Between(s)
    ensures Between(Restarted(s, starts))
  {
    hide HasLineEnd;
  }

  lemma Opened(s: State, len: byte)
    requires Between(s) && len != 0
    ensures Run(s, Reads([DOLLAR, len], true)) == Filled(s, len, [DOLLAR, len], [])
  {
    var x := Sending(Frame(len, [], 0, 0), [0, 0], true);
    assert Idles(0) == [];
    assert Head(x) == [DOLLAR, len];
    HeadRun(s, x);
    NothingFilled(s, len, [DOLLAR, len]);
  }

  /** In the terms of the line: one frame in the log, a 'U' for each prompt, then the verdict. */
  lemma PromptedFrame(s: State, starts: seq<seq<byte>>, f: Frame)
    requires Between(s) && Admissible(f) && Starts(f.len, [DOLLAR, f.len], starts)
    requires f.Good() ==> |s.pending| + |f.payload| <= 1000
    ensures var t := Run(s, Reads([0x24, f.len] + Begun(starts) + (f.payload + [f.lo, f.hi]), true));
      && t.log == s.log + [f]
      && t.tx == s.tx + seq(|starts|, _ => 0x55) + [if f.Good() then 0x2A else 0x26]
      && t.file + Filter(t.pending) == s.file + Filter(s.pending + if f.Good() then f.payload else [])
  {
    PromptRestarts(s, starts, f);
    StillListening(s, starts);
    var u := Restarted(s, starts);
    assert u.tx == s.tx + seq(|starts|, _ => 0x55) && u.log == s.log && u.pending == s.pending && u.file == s.file;
    hide Run, Reads, FrameStep, Begun, Admissible, Frame.Good, MarksLine, MarksEnd, Filter, Restarted, Starts;
    FrameEffect(u, f, true);
    EmptyFilter();
    NothingAdded(s.file + Filter(s.pending + f.payload));
    NothingAdded(s.pending);
  }
}
