/** What holds of the receiver after every stream of reads: no well-formedness of the stream assumed. */
module ReceiverSafety {
  import opened Bytes
  import opened Crc
  import opened FrameMachine
  import opened Sequences

  /** The payloads of the frames whose check matched, in order. */
  function GoodData(log: seq<Frame>): seq<byte> {
    if log == [] then []
    else GoodData(log[..|log| - 1]) + (if log[|log| - 1].Good() then log[|log| - 1].payload else [])
  }

  lemma GoodDataOne(log: seq<Frame>, f: Frame)
    ensures GoodData(log + [f]) == GoodData(log) + (if f.Good() then f.payload else [])
  {
    assert (log + [f])[..|log|] == log;
  }

  lemma {:induction false} FilterAppend(a: seq<byte>, b: seq<byte>)
    ensures Filter(a + b) == Filter(a) + Filter(b)
  {
    hide Printable;
    TailOf(a, b);
    if b == [] {
      NothingAdded(a);
      NothingAdded(Filter(a));
    } else {
      var n := |b| - 1;
      FilterAppend(a, b[..n]);
      Reassociate(Filter(a), Filter(b[..n]), if Printable(b[n]) then [b[n]] else []);
    }
  }

  // ---------------------------------------------------------------- output conservation

  /** What the files hold, followed by what pending characters would add, is the filtered payload of
      every frame accepted so far, wherever the flushes fell; after four hashes it is a prefix. */
  predicate Conserved(s: State) {
    && (s.exit != Discarded ==> s.file + Filter(s.pending) == Filter(GoodData(s.log)))
    && s.file <= Filter(GoodData(s.log))
  }

  lemma KeepConserves(s: State, log: seq<Frame>, f: Frame)
    requires s.exit == Running && f.Good()
    requires s.log == log + [f]
    requires s.file + Filter(s.pending) == Filter(GoodData(log))
    ensures Conserved(Keep(s, f.payload))
  {
    hide Filter;
    hide Matches;
    GoodDataOne(log, f);
    FilterAppend(s.pending, f.payload);
    FilterAppend(GoodData(log), f.payload);
    EmptyFilter();
    var p := Filter(f.payload);
    assert s.file + (Filter(s.pending) + p) == (s.file + Filter(s.pending)) + p;
    assert s.file <= s.file + (Filter(s.pending) + p);
  }

  lemma EmptyFilter()
    ensures Filter([]) == []
  {
  }

  lemma JudgeConserves(s: State, f: Frame, ok: bool)
    requires Conserved(s) && s.exit == Running
    ensures Conserved(Judge(s, f, ok))
  {
    hide Matches, Filter, Keep, GoodData;
    if !f.Good() {
      GoodDataOne(s.log, f);
      assert GoodData(s.log) + [] == GoodData(s.log);
    } else if |s.pending| + |f.payload| <= BUFFER {
      var t := Written(s, ACK, ok).(phase := Idle, hashes := 0, log := s.log + [f]);
      KeepConserves(t, s.log, f);
    }
  }

  /** A step that touches neither the files, the pending data nor the log. */
  predicate SameOutput(s: State, t: State) {
    t.file == s.file && t.pending == s.pending && t.log == s.log && (t.exit == s.exit || t.exit != Discarded)
  }

  lemma SameOutputConserves(s: State, t: State)
    requires Conserved(s) && s.exit == Running && SameOutput(s, t)
    ensures Conserved(t)
  {
    hide Filter, GoodData;
  }

  lemma InPhaseConserves(s: State, ch: byte, ok: bool)
    requires Conserved(s) && s.exit == Running
    ensures Conserved(InPhase(s, ch, ok))
  {
    hide Judge, Store, Conserved;
    match s.phase {
      case Check(len, data, first) =>
        var t := s.(newline := s.newline || LineEnd(ch));
        SameOutputConserves(s, t);
        if first.Some? {
          JudgeConserves(t, Frame(len, data, first.value, ch), ok);
        } else {
          SameOutputConserves(s, InPhase(s, ch, ok));
        }
      case Payload(len, data) =>
        StoreKeeps(Marks(s, ch), len, data, ch);
        SameOutputConserves(s, InPhase(s, ch, ok));
      case _ =>
        SameOutputConserves(s, InPhase(s, ch, ok));
    }
  }

  lemma ByteConserves(s: State, ch: byte, ok: bool)
    requires Conserved(s) && s.exit == Running
    ensures Conserved(Byte(s, ch, ok))
  {
    hide InPhase, Filter, GoodData;
    InPhaseConserves(s.(hashes := if ch == HASH then s.hashes + 1 else 0), ch, ok);
  }

  lemma StepConserves(s: State, e: Event)
    requires Conserved(s)
    ensures Conserved(Step(s, e))
  {
    hide Byte, Conserved;
    if s.exit == Running && e.Read? {
      var t := s.(tries := s.tries + 1);
      SameOutputConserves(s, t);
      SameOutputConserves(s, t.(exit := NoPrompt));
      ByteConserves(s, e.ch, e.writable);
      ByteConserves(t, e.ch, e.writable);
    } else if s.exit == Running {
      SameOutputConserves(s, s.(exit := ReadError));
    }
  }

  lemma StoreKeeps(s: State, len: byte, data: seq<byte>, ch: byte)
    ensures var t := Store(s, len, data, ch);
      t.file == s.file && t.pending == s.pending && t.log == s.log && (t.exit == s.exit || t.exit == Fault)
  {
  }

  /** Over every stream of reads, from the start of the call. */
  lemma {:induction false} OutputConserved(asks: bool, events: seq<Event>)
    ensures Conserved(Run(Written(START, ASK, asks), events))
  {
    hide Step;
    if events == [] {
      assert GoodData([]) == [] && Filter([]) == [];
    } else {
      OutputConserved(asks, events[..|events| - 1]);
      StepConserves(Run(Written(START, ASK, asks), events[..|events| - 1]), events[|events| - 1]);
    }
  }

  // ---------------------------------------------------------------- control state

  /** A byte that can be stored as payload: the other three are interpreted even inside a frame. */
  predicate Storable(ch: byte) {
    ch != 0 && ch != DOLLAR && ch != QUESTION
  }

  predicate AllStorable(data: seq<byte>) {
    forall i :: 0 <= i < |data| ==> Storable(data[i])
  }

  predicate WellFormed(f: Frame) {
    |f.payload| == Value(f.len) - 2 && AllStorable(f.payload)
  }

  predicate PhaseControlled(p: Phase) {
    match p
    case Payload(len, data) =>
      len != 0 && |data| <= BUFFER - 2 && AllStorable(data) && (len >= 3 ==> |data| < Value(len) - 2)
    case Check(len, data, first) => len >= 3 && |data| == Value(len) - 2 && AllStorable(data)
    case _ => true
  }

  /** The control-state invariant: counts, lengths and contents in every reachable state. */
  predicate Controlled(s: State) {
    && PhaseControlled(s.phase)
    && (s.exit == Running ==> s.hashes <= 3 && (s.asked || s.tries <= PATIENCE))
    && |s.pending| <= BUFFER
    && s.tries <= PATIENCE + 1
    && (forall i :: 0 <= i < |s.log| ==> WellFormed(s.log[i]))
  }

  lemma LogControlled(log: seq<Frame>, f: Frame)
    requires WellFormed(f) && forall i :: 0 <= i < |log| ==> WellFormed(log[i])
    ensures forall i :: 0 <= i < |log + [f]| ==> WellFormed((log + [f])[i])
  {
    hide WellFormed;
  }

  lemma KeepControlled(s: State, payload: seq<byte>)
    requires Controlled(s) && s.exit == Running && |s.pending| + |payload| <= BUFFER
    ensures Controlled(Keep(s, payload)) && Keep(s, payload).asked == s.asked && Keep(s, payload).tries == s.tries
  {
    hide Filter, WellFormed, PhaseControlled;
  }

  lemma JudgeControlled(s: State, f: Frame, ok: bool)
    requires Controlled(s) && s.exit == Running && WellFormed(f)
    ensures Controlled(Judge(s, f, ok))
    ensures Judge(s, f, ok).asked == s.asked && Judge(s, f, ok).tries == s.tries
  {
    LogControlled(s.log, f);
    assert PhaseControlled(Idle);
    hide Matches, Keep, WellFormed, PhaseControlled;
    if f.Good() && |s.pending| + |f.payload| <= BUFFER {
      KeepControlled(Written(s, ACK, ok).(phase := Idle, hashes := 0, log := s.log + [f]), f.payload);
    }
  }

  lemma StoreControlled(s: State, len: byte, data: seq<byte>, ch: byte)
    requires Controlled(s) && s.exit == Running && s.phase == Payload(len, data) && Storable(ch)
    ensures Controlled(Store(s, len, data, ch))
    ensures Store(s, len, data, ch).asked == s.asked && Store(s, len, data, ch).tries == s.tries
  {
    hide Storable, WellFormed;
  }

  lemma InPhaseControlled(s: State, ch: byte, ok: bool)
    requires Controlled(s) && s.exit == Running && (ch != 0 || s.phase.Check?)
    ensures Controlled(InPhase(s, ch, ok))
    ensures InPhase(s, ch, ok).tries == s.tries
    ensures ch != QUESTION ==> InPhase(s, ch, ok).asked == s.asked
  {
    hide Judge, Store;
    match s.phase {
      case Check(len, data, first) =>
        var t := s.(newline := s.newline || LineEnd(ch));
        if first.Some? {
          JudgeControlled(t, Frame(len, data, first.value, ch), ok);
        }
      case Payload(len, data) =>
        if ch != QUESTION && ch != DOLLAR {
          StoreControlled(Marks(s, ch), len, data, ch);
        }
      case _ =>
    }
  }

  lemma ByteControlled(s: State, ch: byte, ok: bool)
    requires Controlled(s) && s.exit == Running
    ensures Controlled(Byte(s, ch, ok))
    ensures Byte(s, ch, ok).tries == s.tries
    ensures ch != QUESTION ==> Byte(s, ch, ok).asked == s.asked
  {
    hide InPhase, PhaseControlled, WellFormed;
    if (ch != 0 || s.phase.Check?) && !(ch == HASH && s.hashes >= 3) {
      InPhaseControlled(s.(hashes := if ch == HASH then s.hashes + 1 else 0), ch, ok);
    }
  }

  lemma StepControlled(s: State, e: Event)
    requires Controlled(s)
    ensures Controlled(Step(s, e))
    ensures !s.asked && !IsPrompt(e) ==>
      !Step(s, e).asked && (Step(s, e).exit == Running ==> Step(s, e).tries == s.tries + 1)
  {
    hide Byte, PhaseControlled, WellFormed;
    if s.exit == Running && e.Read? {
      if s.asked {
        ByteControlled(s, e.ch, e.writable);
      } else if s.tries < PATIENCE {
        ByteControlled(s.(tries := s.tries + 1), e.ch, e.writable);
      }
    }
  }

  lemma {:induction false} ReachableControlled(asks: bool, events: seq<Event>)
    ensures Controlled(Run(Written(START, ASK, asks), events))
  {
    hide Step;
    if events != [] {
      ReachableControlled(asks, events[..|events| - 1]);
      StepControlled(Run(Written(START, ASK, asks), events[..|events| - 1]), events[|events| - 1]);
    }
  }

  lemma JudgeFault(s: State, f: Frame, ok: bool)
    requires s.exit == Running
    ensures Judge(s, f, ok).exit == Fault <==> f.Good() && |s.pending| + |f.payload| > BUFFER
  {
    hide Matches, Filter;
  }

  /** When a pass stores beyond a buffer: on the 999th byte of a frame of length 1 or 2, or when an
      accepted payload does not fit behind what is pending. At no other time. */
  predicate Overruns(s: State, ch: byte) {
    match s.phase
    case Payload(len, data) => len < 3 && |data| == 998 && ch != 0 && ch != 0x24 && ch != 0x3F
    case Check(len, data, Some(lo)) => Frame(len, data, lo, ch).Good() && |s.pending| + |data| > 1000
    case _ => false
  }

  lemma InPhaseFault(s: State, ch: byte, ok: bool)
    requires PhaseControlled(s.phase) && s.exit == Running && (ch != 0 || s.phase.Check?)
    ensures InPhase(s, ch, ok).exit == Fault <==> Overruns(s, ch)
  {
    hide Judge, LineEnd, AllStorable;
    match s.phase {
      case Check(len, data, Some(lo)) =>
        JudgeFault(s.(newline := s.newline || LineEnd(ch)), Frame(len, data, lo, ch), ok);
      case Payload(len, data) => ShortLength(len);
      case _ =>
    }
  }

  lemma FaultIff(s: State, ch: byte, ok: bool)
    requires Controlled(s) && s.exit == Running && (s.asked || s.tries < 25)
    ensures Step(s, Read(ch, ok)).exit == Fault <==> Overruns(s, ch) && !(ch == 0x23 && s.hashes == 3)
  {
    hide InPhase, WellFormed, PhaseControlled;
    var t := if s.asked then s else s.(tries := s.tries + 1);
    if ch != 0 || s.phase.Check? {
      InPhaseFault(t.(hashes := if ch == HASH then t.hashes + 1 else 0), ch, ok);
    }
  }

  lemma ShortLength(len: byte)
    ensures len < 3 <==> Value(len) < 3
    ensures Value(len) <= 255
  {
  }

  // ---------------------------------------------------------------- the prompt

  predicate IsPrompt(e: Event) {
    e.Read? && e.ch == 0x3F
  }

  lemma {:induction false} StillUnasked(asks: bool, events: seq<Event>)
    requires forall i :: 0 <= i < |events| ==> !IsPrompt(events[i])
    ensures var s := Run(Written(START, ASK, asks), events);
      !s.asked && (s.exit == Running ==> s.tries == |events|)
  {
    hide Step;
    if events != [] {
      var before := events[..|events| - 1];
      StillUnasked(asks, before);
      ReachableControlled(asks, before);
      StoppedStays(Written(START, ASK, asks), before, events);
      StepControlled(Run(Written(START, ASK, asks), before), events[|events| - 1]);
    }
  }

  /** A call that has ended makes no more passes. */
  lemma {:induction false} StoppedStays(s: State, a: seq<Event>, b: seq<Event>)
    requires a <= b
    ensures Run(s, a).exit != Running ==> Run(s, b) == Run(s, a)
  {
    if |b| > |a| {
      StoppedStays(s, a, b[..|b| - 1]);
    } else {
      assert a == b;
    }
  }

  /** Without a '?' among the first 25 reads, idle ones counted, the call is over after read 26. */
  lemma PromptTimeout(asks: bool, events: seq<Event>)
    requires |events| >= 26
    requires forall i :: 0 <= i < 25 ==> !IsPrompt(events[i])
    ensures Run(Written(START, ASK, asks), events[..26]).exit != Running
    ensures Run(Written(START, ASK, asks), events) == Run(Written(START, ASK, asks), events[..26])
  {
    var first := events[..PATIENCE];
    assert events[..PATIENCE + 1][..PATIENCE] == first;
    StillUnasked(asks, first);
    StoppedStays(Written(START, ASK, asks), events[..PATIENCE + 1], events);
    hide Byte;
  }
}
