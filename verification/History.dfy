/** The receiver against the bare list of its reads: which of them make up a judged frame, how many hashes are
    counted, when the line mark is set, how a call ends, and what patience has to do with it. */
module History {
  import opened Bytes
  import opened Wrappers
  import opened FrameMachine
  import opened ReceiverSafety
  import opened Framing

  predicate IsRead(e: Event, ch: byte) {
    e.Read? && e.ch == ch
  }

  /** The state after the reads of a call. */
  function After(asks: bool, events: seq<Event>): State {
    Run(Written(START, ASK, asks), events)
  }

  lemma AfterNext(asks: bool, events: seq<Event>, e: Event)
    ensures After(asks, events + [e]) == Step(After(asks, events), e)
  {
    hide Step;
    assert (events + [e])[..|events|] == events;
  }

  // ---------------------------------------------------------------- one pass, as far as phases go

  lemma JudgePhase(s: State, f: Frame, ok: bool)
    requires s.exit == Running
    ensures var t := Judge(s, f, ok);
      && (t.exit == Running ==> t.phase == Idle)
      && (t.log == s.log || t.log == s.log + [f])
      && (t.exit != Fault ==> t.log == s.log + [f])
  {
    hide Frame.Good, Filter;
  }

  /** The phase after a byte that is neither skipped nor the fourth hash. */
  lemma InPhasePhase(s: State, ch: byte, ok: bool)
    requires s.exit == Running && InPhase(s, ch, ok).exit == Running
    ensures var p := InPhase(s, ch, ok).phase;
      match s.phase
      case Idle => p == if ch == 0x24 then Length else Idle
      case Length => p == Payload(ch, [])
      case Payload(len, data) =>
        if ch == 0x3F then p == Payload(len, [])
        else if ch == 0x24 then p == s.phase
        else p == Payload(len, data + [ch]) || p == Check(len, data + [ch], None)
      case Check(len, data, first) => p == if first.None? then Check(len, data, Some(ch)) else Idle
  {
    hide Value, LineEnd, Judge;
    match s.phase {
      case Check(len, data, Some(lo)) =>
        JudgePhase(s.(newline := s.newline || LineEnd(ch)), Frame(len, data, lo, ch), ok);
      case _ =>
    }
  }

  /** The phase after a pass that does not end the call. */
  lemma PhaseStep(s: State, ch: byte, ok: bool)
    requires s.exit == Running && Step(s, Read(ch, ok)).exit == Running
    ensures var p := Step(s, Read(ch, ok)).phase;
      match s.phase
      case Idle => p == if ch == 0x24 then Length else Idle
      case Length => p == if ch == 0 then Length else Payload(ch, [])
      case Payload(len, data) =>
        if ch == 0x3F then p == Payload(len, [])
        else if ch == 0 || ch == 0x24 then p == s.phase
        else p == Payload(len, data + [ch]) || p == Check(len, data + [ch], None)
      case Check(len, data, first) => p == if first.None? then Check(len, data, Some(ch)) else Idle
  {
    hide InPhase;
    var t := if s.asked then s else s.(tries := s.tries + 1);
    if ch != 0 || s.phase.Check? {
      InPhasePhase(t.(hashes := if ch == HASH then t.hashes + 1 else 0), ch, ok);
    }
  }

  /** The log grows by one frame exactly where its second check byte is read, and only there. */
  lemma InPhaseLog(s: State, ch: byte, ok: bool)
    requires s.exit == Running
    ensures var t := InPhase(s, ch, ok);
      t.log == s.log || (s.phase.Check? && s.phase.first.Some?
        && t.log == s.log + [Frame(s.phase.len, s.phase.data, s.phase.first.value, ch)])
  {
    hide Value, LineEnd, Judge;
    match s.phase {
      case Check(len, data, Some(lo)) =>
        JudgePhase(s.(newline := s.newline || LineEnd(ch)), Frame(len, data, lo, ch), ok);
      case _ =>
    }
  }

  lemma LogStep(s: State, e: Event)
    ensures var t := Step(s, e);
      t.log == s.log || (s.exit == Running && e.Read? && s.phase.Check? && s.phase.first.Some?
        && t.log == s.log + [Frame(s.phase.len, s.phase.data, s.phase.first.value, e.ch)])
  {
    hide InPhase;
    if s.exit == Running && e.Read? {
      var t := s.(hashes := if e.ch == HASH then s.hashes + 1 else 0);
      InPhaseLog(t, e.ch, e.writable);
      InPhaseLog(t.(tries := s.tries + 1), e.ch, e.writable);
    }
  }

  // ---------------------------------------------------------------- which reads make up a frame

  /** The bytes among the reads that are stored when they come as payload. */
  function Kept(events: seq<Event>): seq<byte> {
    if events == [] then []
    else
      var e := events[|events| - 1];
      Kept(events[..|events| - 1]) + (if e.Read? && e.ch != 0 && e.ch != 0x24 && e.ch != 0x3F then [e.ch] else [])
  }

  /** A '$' at `d`, and nothing but idle reads between it and `l`. */
  predicate OpenedAt(events: seq<Event>, d: nat, l: nat) {
    d < l <= |events| && IsRead(events[d], 0x24) && forall i :: d < i < l ==> IsRead(events[i], 0)
  }

  /** The length byte `len` at `l`, behind its '$', and `data` as the bytes stored from `m` up to `n`; `m` is right
      behind the length byte or behind a '?', and no '?' comes after it. */
  predicate BodyFrom(events: seq<Event>, d: nat, l: nat, m: nat, n: nat, len: byte, data: seq<byte>) {
    && d < l < m <= n <= |events|
    && OpenedAt(events, d, l) && IsRead(events[l], len)
    && (m == l + 1 || IsRead(events[m - 1], 0x3F))
    && (forall i :: m <= i < n ==> !IsRead(events[i], 0x3F))
    && data == Kept(events[m..n])
  }

  ghost predicate Body(events: seq<Event>, n: nat, len: byte, data: seq<byte>) {
    exists d: nat, l: nat, m: nat :: BodyFrom(events, d, l, m, n, len, data)
  }

  /** What the phase holds is what the reads say. */
  ghost predicate Traced(p: Phase, events: seq<Event>) {
    match p
    case Idle => true
    case Length => exists d: nat :: OpenedAt(events, d, |events|)
    case Payload(len, data) => Body(events, |events|, len, data)
    case Check(len, data, None) => Body(events, |events|, len, data)
    case Check(len, data, Some(lo)) =>
      |events| > 0 && IsRead(events[|events| - 1], lo) && Body(events, |events| - 1, len, data)
  }

  lemma KeptNext(events: seq<Event>, m: nat, n: nat)
    requires m <= n < |events| && events[n].Read?
    ensures var ch := events[n].ch;
      Kept(events[m..n + 1]) == Kept(events[m..n]) + if ch != 0 && ch != 0x24 && ch != 0x3F then [ch] else []
  {
    assert events[m..n + 1][..n - m] == events[m..n];
  }

  lemma BodyLater(events: seq<Event>, e: Event, n: nat, len: byte, data: seq<byte>)
    requires Body(events, n, len, data)
    ensures Body(events + [e], n, len, data)
  {
    var d: nat, l: nat, m: nat :| BodyFrom(events, d, l, m, n, len, data);
    var all := events + [e];
    assert all[m..n] == events[m..n];
    assert forall i :: 0 <= i < |events| ==> all[i] == events[i];
    assert BodyFrom(all, d, l, m, n, len, data);
  }

  /** One read more, not a prompt. */
  lemma BodyMore(events: seq<Event>, e: Event, len: byte, data: seq<byte>)
    requires Body(events, |events|, len, data) && e.Read? && e.ch != 0x3F
    ensures Body(events + [e], |events| + 1, len, data + if e.ch != 0 && e.ch != 0x24 then [e.ch] else [])
  {
    hide Kept;
    var n := |events|;
    var d: nat, l: nat, m: nat :| BodyFrom(events, d, l, m, n, len, data);
    var all := events + [e];
    assert all[m..n] == events[m..n];
    assert forall i :: 0 <= i < n ==> all[i] == events[i];
    KeptNext(all, m, n);
    assert BodyFrom(all, d, l, m, n + 1, len, data + if e.ch != 0 && e.ch != 0x24 then [e.ch] else []);
  }

  /** A prompt: the payload begins again. */
  lemma BodyAgain(events: seq<Event>, e: Event, len: byte, data: seq<byte>)
    requires Body(events, |events|, len, data) && IsRead(e, 0x3F)
    ensures Body(events + [e], |events| + 1, len, [])
  {
    var n := |events|;
    var d: nat, l: nat, m: nat :| BodyFrom(events, d, l, m, n, len, data);
    var all := events + [e];
    assert all[n + 1..n + 1] == [];
    assert forall i :: 0 <= i < n ==> all[i] == events[i];
    assert BodyFrom(all, d, l, n + 1, n + 1, len, []);
  }

  lemma BodyBegins(events: seq<Event>, d: nat, e: Event)
    requires OpenedAt(events, d, |events|) && e.Read?
    ensures Body(events + [e], |events| + 1, e.ch, [])
  {
    var n := |events|;
    var all := events + [e];
    assert all[n + 1..n + 1] == [];
    assert forall i :: 0 <= i < n ==> all[i] == events[i];
    assert BodyFrom(all, d, n, n + 1, n + 1, e.ch, []);
  }

  lemma LengthOpens(events: seq<Event>, e: Event)
    requires IsRead(e, 0x24)
    ensures Traced(Length, events + [e])
  {
    assert OpenedAt(events + [e], |events|, |events| + 1);
  }

  lemma LengthWaits(events: seq<Event>, e: Event)
    requires Traced(Length, events) && IsRead(e, 0)
    ensures Traced(Length, events + [e])
  {
    var d: nat :| OpenedAt(events, d, |events|);
    assert OpenedAt(events + [e], d, |events| + 1);
  }

  lemma TracedStep(s: State, events: seq<Event>, e: Event)
    requires s.exit == Running && Traced(s.phase, events) && Step(s, e).exit == Running
    ensures Traced(Step(s, e).phase, events + [e])
  {
    if e.ReadFailed? {
      FailedEnds(s);
    } else {
      PhaseStep(s, e.ch, e.writable);
      hide Step, Body, OpenedAt;
      match s.phase {
        case Idle =>
          if e.ch == 0x24 {
            LengthOpens(events, e);
          }
        case Length =>
          if e.ch == 0 {
            LengthWaits(events, e);
          } else {
            var d: nat :| OpenedAt(events, d, |events|);
            BodyBegins(events, d, e);
          }
        case Payload(len, data) =>
          if e.ch == 0x3F {
            BodyAgain(events, e, len, data);
          } else {
            BodyMore(events, e, len, data);
            assert data + [] == data;
          }
        case Check(len, data, first) =>
          if first.None? {
            BodyLater(events, e, |events|, len, data);
          }
      }
    }
  }

  lemma FailedEnds(s: State)
    requires s.exit == Running
    ensures Step(s, ReadFailed).exit == ReadError
  {
  }

  lemma {:induction false} AlwaysTraced(asks: bool, events: seq<Event>)
    requires After(asks, events).exit == Running
    ensures Traced(After(asks, events).phase, events)
  {
    hide Step, Traced;
    if events == [] {
      NothingTraced(asks);
    } else {
      var n := |events| - 1;
      StoppedStays(Written(START, ASK, asks), events[..n], events);
      AlwaysTraced(asks, events[..n]);
      TracedStep(After(asks, events[..n]), events[..n], events[n]);
      assert events[..n] + [events[n]] == events;
    }
  }

  lemma NothingTraced(asks: bool)
    ensures Traced(After(asks, []).phase, [])
  {
  }

  /** Over every stream of reads: a frame is judged when its second check byte is read, the read before that
      gave the first, and its payload is what was stored, before these two, since the last prompt inside the
      frame, or since its length byte if there was none. */
  lemma JudgedIsWhatWasRead(asks: bool, events: seq<Event>, e: Event)
    requires After(asks, events + [e]).log != After(asks, events).log
    ensures var log := After(asks, events + [e]).log;
      && |log| == |After(asks, events).log| + 1 && log[..|log| - 1] == After(asks, events).log
      && var f, n := log[|log| - 1], |events| - 1;
      && n >= 0 && IsRead(e, f.hi) && IsRead(events[n], f.lo) && Body(events, n, f.len, f.payload)
  {
    hide Step, Body;
    AfterNext(asks, events, e);
    LogStep(After(asks, events), e);
    AlwaysTraced(asks, events);
  }

  // ---------------------------------------------------------------- how a pass ends the call

  /** The pass reads its byte with patience left. */
  predicate Takes(s: State, e: Event) {
    s.exit == Running && e.Read? && (s.asked || s.tries < 25)
  }

  lemma JudgeEnds(s: State, f: Frame, ok: bool)
    requires s.exit == Running
    ensures Judge(s, f, ok).exit in {Running, EndOfRecord, Fault}
  {
    hide Frame.Good, Filter;
  }

  lemma InPhaseEnds(s: State, ch: byte, ok: bool)
    requires s.exit == Running
    ensures var t := InPhase(s, ch, ok);
      && t.exit in {Running, PromptLost, EndOfRecord, Fault}
      && (t.exit == PromptLost <==> ch == 0x3F && !ok && (s.phase.Idle? || s.phase.Payload?))
  {
    hide Judge, Value, LineEnd;
    match s.phase {
      case Check(len, data, Some(lo)) =>
        JudgeEnds(s.(newline := s.newline || LineEnd(ch)), Frame(len, data, lo, ch), ok);
      case _ =>
    }
  }

  /** A call ends without a frame in four ways, each with its one cause: a failed read; a read after the 25
      without a prompt; a fourth hash; a prompt whose answer cannot be written. */
  lemma EndsBecause(s: State, e: Event)
    requires s.exit == Running
    ensures var t := Step(s, e);
      && (t.exit == ReadError <==> e.ReadFailed?)
      && (t.exit == NoPrompt <==> e.Read? && !s.asked && s.tries >= 25)
      && (t.exit == Discarded <==> Takes(s, e) && e.ch == 0x23 && s.hashes >= 3)
      && (t.exit == PromptLost <==>
          Takes(s, e) && e.ch == 0x3F && !e.writable && (s.phase.Idle? || s.phase.Payload?))
  {
    hide InPhase;
    if e.Read? {
      var t := s.(hashes := if e.ch == HASH then s.hashes + 1 else 0);
      InPhaseEnds(t, e.ch, e.writable);
      InPhaseEnds(t.(tries := s.tries + 1), e.ch, e.writable);
    }
  }

  // ---------------------------------------------------------------- which hashes are counted

  /** The pass brings a good frame into the log. */
  predicate Accepts(s: State, e: Event) {
    |Step(s, e).log| > |s.log| && Step(s, e).log[|Step(s, e).log| - 1].Good()
  }

  /** The bytes that count, since the last good frame: all but idle reads, which are zeros outside the check. */
  function Noticed(asks: bool, events: seq<Event>): seq<byte> {
    if events == [] then []
    else
      var s, e := After(asks, events[..|events| - 1]), events[|events| - 1];
      var before := Noticed(asks, events[..|events| - 1]);
      if s.exit != Running || e.ReadFailed? || (e.ch == 0 && !s.phase.Check?) then before
      else if Accepts(s, e) then []
      else before + [e.ch]
  }

  lemma JudgeCounts(s: State, f: Frame, ok: bool)
    requires s.exit == Running && Judge(s, f, ok).exit == Running
    ensures Judge(s, f, ok).log == s.log + [f] && Judge(s, f, ok).hashes == if f.Good() then 0 else s.hashes
  {
    hide Frame.Good, Filter;
  }

  lemma InPhaseCounts(s: State, ch: byte, ok: bool)
    requires s.exit == Running && InPhase(s, ch, ok).exit == Running
    ensures var t := InPhase(s, ch, ok);
      if |t.log| > |s.log| && t.log[|t.log| - 1].Good() then t.hashes == 0 else t.hashes == s.hashes
  {
    hide Judge, Value, LineEnd, Frame.Good;
    match s.phase {
      case Check(len, data, Some(lo)) =>
        JudgeCounts(s.(newline := s.newline || LineEnd(ch)), Frame(len, data, lo, ch), ok);
      case _ =>
    }
  }

  lemma StepCounts(s: State, ch: byte, ok: bool)
    requires s.exit == Running && Step(s, Read(ch, ok)).exit == Running
    ensures Step(s, Read(ch, ok)).hashes ==
      if ch == 0 && !s.phase.Check? then s.hashes
      else if Accepts(s, Read(ch, ok)) then 0
      else if ch == 0x23 then s.hashes + 1
      else 0
  {
    hide InPhase, Frame.Good;
    var t := if s.asked then s else s.(tries := s.tries + 1);
    if ch != 0 || s.phase.Check? {
      InPhaseCounts(t.(hashes := if ch == HASH then t.hashes + 1 else 0), ch, ok);
    }
  }

  /** The count of hashes is the number of '#' at the end of the bytes that count. */
  lemma {:induction false} HashesAreCounted(asks: bool, events: seq<Event>)
    requires After(asks, events).exit == Running
    ensures After(asks, events).hashes == Trailing(Noticed(asks, events))
  {
    hide Step, Accepts;
    if events != [] {
      var n := |events| - 1;
      var s := After(asks, events[..n]);
      StoppedStays(Written(START, ASK, asks), events[..n], events);
      HashesAreCounted(asks, events[..n]);
      if events[n].ReadFailed? {
        FailedEnds(s);
      } else {
        StepCounts(s, events[n].ch, events[n].writable);
        TrailingNext(Noticed(asks, events[..n]), events[n].ch);
      }
    }
  }

  /** Over every stream of reads: a record is thrown away exactly at the fourth '#' in a row, idle reads aside,
      since the last good frame. */
  lemma DiscardedIff(asks: bool, events: seq<Event>, e: Event)
    requires After(asks, events).exit == Running
    ensures After(asks, events + [e]).exit == Discarded <==>
      Takes(After(asks, events), e) && e.ch == 0x23 && Trailing(Noticed(asks, events)) >= 3
  {
    hide Step, Noticed, Trailing;
    AfterNext(asks, events, e);
    HashesAreCounted(asks, events);
    EndsBecause(After(asks, events), e);
  }

  // ---------------------------------------------------------------- the line mark

  /** The pass takes a newline or a carriage return that is not a length byte. */
  predicate TakesLine(s: State, e: Event) {
    Takes(s, e) && (e.ch == 10 || e.ch == 13) && !s.phase.Length?
  }

  /** The pass writes out what is pending: the last byte of a good frame that fits, no end mark, and a line mark,
      be it set by that very byte. */
  predicate Flushes(s: State, e: Event) {
    && Takes(s, e) && !(e.ch == 0x23 && s.hashes >= 3) && !s.ended && (s.newline || TakesLine(s, e))
    && match s.phase
       case Check(len, data, Some(lo)) => Frame(len, data, lo, e.ch).Good() && |s.pending| + |data| <= 1000
       case _ => false
  }

  lemma JudgeLine(s: State, f: Frame, ok: bool)
    requires s.exit == Running
    ensures var t, flush := Judge(s, f, ok), f.Good() && |s.pending| + |f.payload| <= 1000 && !s.ended && s.newline;
      && t.newline == (s.newline && !flush)
      && t.file == s.file + (if flush then Filter(s.pending + f.payload) else [])
  {
    hide Frame.Good, Filter;
    assert s.file + [] == s.file;
  }

  lemma InPhaseLine(s: State, ch: byte, ok: bool)
    requires s.exit == Running
    ensures var t, line := InPhase(s, ch, ok), s.newline || ((ch == 10 || ch == 13) && !s.phase.Length?);
      match s.phase
      case Check(len, data, Some(lo)) =>
        var flush := Frame(len, data, lo, ch).Good() && |s.pending| + |data| <= 1000 && !s.ended && line;
        && t.newline == (line && !flush)
        && t.file == s.file + (if flush then Filter(s.pending + data) else [])
      case _ => t.newline == line && t.file == s.file
  {
    hide Judge, Value, Frame.Good, Filter;
    match s.phase {
      case Check(len, data, Some(lo)) =>
        JudgeLine(s.(newline := s.newline || LineEnd(ch)), Frame(len, data, lo, ch), ok);
      case _ =>
    }
  }

  /** What a pass does to the line mark and to the files. */
  lemma LineStep(s: State, e: Event)
    requires s.exit == Running
    ensures Step(s, e).newline == ((s.newline || TakesLine(s, e)) && !Flushes(s, e))
    ensures Flushes(s, e) ==> Step(s, e).file == s.file + Filter(s.pending + s.phase.data)
    ensures !Flushes(s, e) ==> Step(s, e).file == s.file
  {
    hide InPhase, Frame.Good, Filter;
    if e.Read? {
      var t := s.(hashes := if e.ch == HASH then s.hashes + 1 else 0);
      InPhaseLine(t, e.ch, e.writable);
      InPhaseLine(t.(tries := s.tries + 1), e.ch, e.writable);
      assert s.file + [] == s.file;
    }
  }

  /** A line end was taken at pass `i`, and nothing was written out from there to pass `n`. */
  predicate LineSince(asks: bool, events: seq<Event>, i: nat, n: nat)
    requires n <= |events|
  {
    && i < n && TakesLine(After(asks, events[..i]), events[i])
    && forall j :: i <= j < n ==> !Flushes(After(asks, events[..j]), events[j])
  }

  ghost predicate Marked(asks: bool, events: seq<Event>, n: nat)
    requires n <= |events|
  {
    exists i: nat :: LineSince(asks, events, i, n)
  }

  lemma MarkedPrefix(asks: bool, events: seq<Event>, n: nat)
    requires n <= |events|
    ensures Marked(asks, events[..n], n) <==> Marked(asks, events, n)
  {
    hide After, TakesLine, Flushes;
    assert forall j :: 0 <= j < n ==> events[..n][..j] == events[..j];
    forall i: nat
      ensures LineSince(asks, events[..n], i, n) <==> LineSince(asks, events, i, n)
    {
    }
  }

  lemma MarkedNext(asks: bool, events: seq<Event>, n: nat, m: nat)
    requires m == n + 1 <= |events|
    ensures var s := After(asks, events[..n]);
      Marked(asks, events, m) <==> (Marked(asks, events, n) || TakesLine(s, events[n])) && !Flushes(s, events[n])
  {
    hide After, TakesLine, Flushes;
    var s := After(asks, events[..n]);
    forall i: nat
      ensures LineSince(asks, events, i, m) <==>
        (if i == n then TakesLine(s, events[n]) else LineSince(asks, events, i, n)) && !Flushes(s, events[n])
    {
    }
    if TakesLine(s, events[n]) && !Flushes(s, events[n]) {
      assert LineSince(asks, events, n, m);
    }
  }

  /** Over every stream of reads: the line mark is set exactly when a line end has been taken and nothing written
      out since. */
  lemma {:induction false} LineMarkIff(asks: bool, events: seq<Event>)
    ensures After(asks, events).newline <==> Marked(asks, events, |events|)
  {
    if events == [] {
      assert !After(asks, []).newline;
    } else {
      var n := |events| - 1;
      LineMarkIff(asks, events[..n]);
      MarkedPrefix(asks, events, n);
      MarkedNext(asks, events, n, n + 1);
      MarkStep(After(asks, events[..n]), events[n]);
      hide Step, TakesLine, Flushes, Marked;
    }
  }

  lemma MarkStep(s: State, e: Event)
    ensures Step(s, e).newline == ((s.newline || TakesLine(s, e)) && !Flushes(s, e))
  {
    hide Byte;
    if s.exit == Running {
      LineStep(s, e);
    }
  }

  // ---------------------------------------------------------------- patience

  /** The same call with another patience. */
  function With(s: State, asked: bool, tries: nat): State {
    s.(asked := asked, tries := tries)
  }

  /** What is left when patience is not looked at. */
  function Patient(s: State): State {
    With(s, true, 0)
  }

  lemma KeepWith(s: State, asked: bool, tries: nat, payload: seq<byte>)
    ensures Keep(With(s, asked, tries), payload) == With(Keep(s, payload), asked, tries)
  {
    hide Filter;
  }

  lemma GrantWith(s: State, asked: bool, tries: nat, f: Frame, ok: bool)
    ensures Grant(With(s, asked, tries), f, ok) == With(Grant(s, f, ok), asked, tries)
  {
    hide Keep;
    KeepWith(Written(s, ACK, ok).(phase := Idle, hashes := 0, log := s.log + [f]), asked, tries, f.payload);
  }

  lemma JudgeWith(s: State, asked: bool, tries: nat, f: Frame, ok: bool)
    ensures Judge(With(s, asked, tries), f, ok) == With(Judge(s, f, ok), asked, tries)
  {
    hide Frame.Good, Grant;
    GrantWith(s, asked, tries, f, ok);
  }

  lemma CheckWith(s: State, asked: bool, tries: nat, ch: byte, ok: bool)
    requires s.phase.Check?
    ensures InPhase(With(s, asked, tries), ch, ok) == With(InPhase(s, ch, ok), asked, tries)
  {
    hide Judge, Store, Prompt, Marks, LineEnd;
    if s.phase.first.Some? {
      var f := Frame(s.phase.len, s.phase.data, s.phase.first.value, ch);
      JudgeWith(s.(newline := s.newline || LineEnd(ch)), asked, tries, f, ok);
    }
  }

  lemma PromptPatient(s: State, asked: bool, tries: nat, ok: bool)
    ensures Patient(Prompt(With(s, asked, tries), ok)) == Patient(Prompt(s, ok))
  {
  }

  lemma StoreWith(s: State, asked: bool, tries: nat, len: byte, data: seq<byte>, ch: byte)
    ensures Store(With(s, asked, tries), len, data, ch) == With(Store(s, len, data, ch), asked, tries)
  {
    hide Value;
  }

  lemma PayloadPatient(s: State, asked: bool, tries: nat, ch: byte, ok: bool)
    requires s.phase.Payload?
    ensures Patient(InPhase(With(s, asked, tries), ch, ok)) == Patient(InPhase(s, ch, ok))
  {
    hide Judge, Store, Prompt, LineEnd;
    PromptPatient(s.(phase := Payload(s.phase.len, [])), asked, tries, ok);
    StoreWith(Marks(s, ch), asked, tries, s.phase.len, s.phase.data, ch);
  }

  lemma OutsidePatient(s: State, asked: bool, tries: nat, ch: byte, ok: bool)
    requires s.phase.Idle? || s.phase.Length?
    ensures Patient(InPhase(With(s, asked, tries), ch, ok)) == Patient(InPhase(s, ch, ok))
  {
    hide Judge, Store, Prompt, LineEnd;
    PromptPatient(s, asked, tries, ok);
  }

  lemma InPhasePatient(s: State, asked: bool, tries: nat, ch: byte, ok: bool)
    ensures Patient(InPhase(With(s, asked, tries), ch, ok)) == Patient(InPhase(s, ch, ok))
  {
    hide InPhase;
    if s.phase.Check? {
      CheckWith(s, asked, tries, ch, ok);
    } else if s.phase.Payload? {
      PayloadPatient(s, asked, tries, ch, ok);
    } else {
      OutsidePatient(s, asked, tries, ch, ok);
    }
  }

  lemma BytePatient(s: State, asked: bool, tries: nat, ch: byte, ok: bool)
    ensures Patient(Byte(With(s, asked, tries), ch, ok)) == Patient(Byte(s, ch, ok))
  {
    hide InPhase;
    InPhasePatient(s.(hashes := if ch == HASH then s.hashes + 1 else 0), asked, tries, ch, ok);
  }

  lemma StepPatient(s: State, t: State, e: Event)
    requires Patient(s) == Patient(t) && (s.asked || s.tries < 25) && (t.asked || t.tries < 25)
    ensures Patient(Step(s, e)) == Patient(Step(t, e))
  {
    hide Byte;
    assert t == With(s, t.asked, t.tries);
    if e.Read? {
      var tries, tries' := if s.asked then s.tries else s.tries + 1, if t.asked then t.tries else t.tries + 1;
      BytePatient(s, s.asked, tries, e.ch, e.writable);
      BytePatient(s, t.asked, tries', e.ch, e.writable);
      assert With(s, s.asked, tries) == if s.asked then s else s.(tries := s.tries + 1);
    }
  }

  lemma {:induction false} TriesBound(s: State, events: seq<Event>)
    ensures var t := Run(s, events); t.asked || t.tries <= s.tries + |events|
    ensures s.asked ==> Run(s, events).asked
  {
    if events != [] {
      TriesBound(s, events[..|events| - 1]);
      TriesStep(Run(s, events[..|events| - 1]), events[|events| - 1]);
      hide Step;
    }
  }

  lemma JudgeTries(s: State, f: Frame, ok: bool)
    ensures Judge(s, f, ok).asked == s.asked && Judge(s, f, ok).tries == s.tries
  {
    hide Frame.Good, Filter;
  }

  lemma InPhaseTries(s: State, ch: byte, ok: bool)
    ensures var t := InPhase(s, ch, ok); t.tries == s.tries && (s.asked ==> t.asked)
  {
    hide Judge, Value, LineEnd;
    match s.phase {
      case Check(len, data, Some(lo)) =>
        JudgeTries(s.(newline := s.newline || LineEnd(ch)), Frame(len, data, lo, ch), ok);
      case _ =>
    }
  }

  lemma TriesStep(s: State, e: Event)
    ensures var t := Step(s, e); t.tries <= s.tries + 1 && (s.asked ==> t.asked)
  {
    hide InPhase;
    if e.Read? {
      var t := s.(hashes := if e.ch == HASH then s.hashes + 1 else 0);
      InPhaseTries(t, e.ch, e.writable);
      InPhaseTries(t.(tries := s.tries + 1), e.ch, e.writable);
    }
  }

  /** Within the first 25 reads a call that has not seen its prompt treats frames, hashes and marks exactly like
      one that has: patience is the only difference. */
  lemma {:induction false} PatienceIsTheOnlyDifference(s: State, events: seq<Event>)
    requires s.tries + |events| <= 25
    ensures Patient(Run(s, events)) == Patient(Run(Patient(s), events))
  {
    hide Step;
    if events != [] {
      var n := |events| - 1;
      PatienceIsTheOnlyDifference(s, events[..n]);
      TriesBound(s, events[..n]);
      TriesBound(Patient(s), events[..n]);
      StepPatient(Run(s, events[..n]), Run(Patient(s), events[..n]), events[n]);
    }
  }
}
