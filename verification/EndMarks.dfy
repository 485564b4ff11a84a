/** The end mark and the writes, over every stream of reads: where the mark comes from, what it does to the
    record, and that a lost answer changes nothing but the answers. */
module EndMarks {
  import opened Bytes
  import opened FrameMachine
  import opened ReceiverSafety

  // ---------------------------------------------------------------- where the end mark comes from

  /** The pass takes an 'E' that is neither a length byte nor a check byte. */
  predicate TakesEnd(s: State, e: Event) {
    && s.exit == Running && e.Read? && e.ch == 0x45 && (s.asked || s.tries < 25)
    && (s.phase.Idle? || s.phase.Payload?)
  }

  lemma JudgeKeepsEnd(s: State, f: Frame, ok: bool)
    ensures Judge(s, f, ok).ended == s.ended
  {
    hide Frame.Good, Filter;
  }

  lemma InPhaseEnded(s: State, ch: byte, ok: bool)
    ensures InPhase(s, ch, ok).ended == (s.ended || (ch == LETTER_E && (s.phase.Idle? || s.phase.Payload?)))
  {
    hide Judge, Value, LineEnd;
    match s.phase {
      case Check(len, data, Some(lo)) =>
        JudgeKeepsEnd(s.(newline := s.newline || LineEnd(ch)), Frame(len, data, lo, ch), ok);
      case _ =>
    }
  }

  lemma EndedStep(s: State, e: Event)
    ensures Step(s, e).ended == (s.ended || TakesEnd(s, e))
  {
    hide InPhase;
    if s.exit == Running && e.Read? {
      var t := s.(hashes := if e.ch == HASH then s.hashes + 1 else 0);
      InPhaseEnded(t, e.ch, e.writable);
      InPhaseEnded(t.(tries := s.tries + 1), e.ch, e.writable);
    }
  }

  /** The end mark is set exactly when an 'E' has been taken between frames or as payload. It makes no difference
      whether the frame it came in was accepted or refused, and nothing ever clears the mark. */
  lemma {:induction false} EndedIff(asks: bool, events: seq<Event>)
    ensures Run(Written(START, ASK, asks), events).ended <==>
      exists i :: 0 <= i < |events| && TakesEnd(Run(Written(START, ASK, asks), events[..i]), events[i])
  {
    hide Step, TakesEnd;
    var start := Written(START, ASK, asks);
    if events != [] {
      var n := |events| - 1;
      EndedIff(asks, events[..n]);
      EndedStep(Run(start, events[..n]), events[n]);
      forall i | 0 <= i < n
        ensures events[..n][..i] == events[..i] && events[..n][i] == events[i]
      {
      }
    }
  }

  // ---------------------------------------------------------------- what it does to the record

  /** The pass takes the last byte of a good frame that fits, with the end mark set. */
  predicate EndsRecord(s: State, e: Event) {
    && s.exit == Running && e.Read? && (s.asked || s.tries < 25) && !(e.ch == 0x23 && s.hashes >= 3)
    && match s.phase
       case Check(len, data, Some(lo)) =>
         Frame(len, data, lo, e.ch).Good() && |s.pending| + |data| <= 1000 && s.ended
       case _ => false
  }

  lemma JudgeEnds(s: State, f: Frame, ok: bool)
    requires s.exit == Running
    ensures var t := Judge(s, f, ok);
      && (t.exit == EndOfRecord <==> f.Good() && |s.pending| + |f.payload| <= BUFFER && s.ended)
      && (t.exit == EndOfRecord ==> t.file == s.file && t.pending == s.pending + f.payload)
  {
    hide Frame.Good, Filter;
  }

  /** The payload under way. */
  function Body(p: Phase): seq<byte> {
    match p
    case Payload(_, data) => data
    case Check(_, data, _) => data
    case _ => []
  }

  lemma InPhaseEnds(s: State, ch: byte, ok: bool)
    requires s.exit == Running
    ensures var t := InPhase(s, ch, ok);
      && (t.exit == EndOfRecord <==> s.ended && match s.phase
            case Check(len, data, Some(lo)) => Frame(len, data, lo, ch).Good() && |s.pending| + |data| <= BUFFER
            case _ => false)
      && (t.exit == EndOfRecord ==> t.file == s.file && t.pending == s.pending + Body(s.phase))
  {
    hide Judge, Value, LineEnd, Frame.Good;
    match s.phase {
      case Check(len, data, Some(lo)) =>
        JudgeEnds(s.(newline := s.newline || LineEnd(ch)), Frame(len, data, lo, ch), ok);
      case _ =>
    }
  }

  lemma EndsStep(s: State, e: Event)
    requires s.exit == Running
    ensures Step(s, e).exit == EndOfRecord <==> EndsRecord(s, e)
    ensures EndsRecord(s, e) ==> Step(s, e).file == s.file && Step(s, e).pending == s.pending + Body(s.phase)
  {
    hide InPhase, Frame.Good;
    if e.Read? {
      var t := s.(hashes := if e.ch == HASH then s.hashes + 1 else 0);
      InPhaseEnds(t, e.ch, e.writable);
      InPhaseEnds(t.(tries := s.tries + 1), e.ch, e.writable);
    }
  }

  /** Over every stream of reads: the call ends at the end of a record exactly when a good frame that fits is
      completed after an 'E' has been taken, in whatever frame; its record is then written nowhere. */
  lemma {:induction false} EndOfRecordIff(asks: bool, events: seq<Event>)
    ensures var start := Written(START, ASK, asks);
      Run(start, events).exit == EndOfRecord <==>
        exists n :: 0 <= n < |events| && EndsRecord(Run(start, events[..n]), events[n])
    ensures var start := Written(START, ASK, asks);
      forall n :: 0 <= n < |events| && EndsRecord(Run(start, events[..n]), events[n]) ==>
        && Run(start, events).file == Run(start, events[..n]).file
        && Run(start, events).pending == Run(start, events[..n]).pending + Body(Run(start, events[..n]).phase)
  {
    var start := Written(START, ASK, asks);
    hide Step, EndsRecord;
    forall n | 0 <= n < |events| && EndsRecord(Run(start, events[..n]), events[n])
      ensures var s := Run(start, events[..n]);
        && Run(start, events).exit == EndOfRecord
        && Run(start, events).file == s.file && Run(start, events).pending == s.pending + Body(s.phase)
    {
      OnlyRunning(Run(start, events[..n]), events[n]);
      EndsStep(Run(start, events[..n]), events[n]);
      RunTo(start, events, n);
      StoppedStays(start, events[..n + 1], events);
    }
    if Run(start, events).exit == EndOfRecord {
      var n := EndedAt(start, events);
      EndsStep(Run(start, events[..n]), events[n]);
    }
  }

  lemma OnlyRunning(s: State, e: Event)
    requires EndsRecord(s, e)
    ensures s.exit == Running
  {
  }

  lemma RunTo(s: State, events: seq<Event>, n: nat)
    requires n < |events|
    ensures Run(s, events[..n + 1]) == Step(Run(s, events[..n]), events[n])
  {
    hide Step;
    assert events[..n + 1][..n] == events[..n];
  }

  /** The pass at which a call ended. */
  lemma {:induction false} EndedAt(s: State, events: seq<Event>) returns (n: nat)
    requires s.exit == Running && Run(s, events).exit != Running
    ensures n < |events| && Run(s, events[..n]).exit == Running
    ensures Step(Run(s, events[..n]), events[n]).exit == Run(s, events).exit
    decreases |events|
  {
    hide Step;
    n := |events| - 1;
    if Run(s, events[..n]).exit != Running {
      StoppedStays(s, events[..n], events);
      var m := n;
      n := EndedAt(s, events[..m]);
      assert events[..m][..n] == events[..n];
    }
  }

  // ---------------------------------------------------------------- lost answers

  /** The pass answers a prompt; all other writes are answers to frames. */
  predicate Prompts(s: State, e: Event) {
    e.Read? && e.ch == QUESTION && (s.phase.Idle? || s.phase.Payload?)
  }

  /** The same reads; writes may fail in the one and succeed in the other, answers to prompts aside. */
  predicate SameReads(s: State, a: Event, b: Event) {
    match a
    case ReadFailed => b.ReadFailed?
    case Read(ch, ok) => b.Read? && b.ch == ch && (Prompts(s, a) ==> b.writable == ok)
  }

  function Unanswered(s: State): State {
    s.(tx := [])
  }

  lemma KeepUnanswered(s: State, tx: seq<byte>, payload: seq<byte>)
    ensures Keep(s.(tx := tx), payload) == Keep(s, payload).(tx := tx)
  {
    hide Filter;
  }

  lemma RefuseUnanswered(s: State, tx: seq<byte>, f: Frame, ok: bool, ok': bool)
    ensures Unanswered(Refuse(s.(tx := tx), f, ok')) == Unanswered(Refuse(s, f, ok))
  {
  }

  lemma GrantUnanswered(s: State, tx: seq<byte>, f: Frame, ok: bool, ok': bool)
    ensures Unanswered(Grant(s.(tx := tx), f, ok')) == Unanswered(Grant(s, f, ok))
  {
    hide Keep;
    var t := s.(phase := Idle, hashes := 0, log := s.log + [f]);
    KeepUnanswered(t, if ok then s.tx + [ACK] else s.tx, f.payload);
    KeepUnanswered(t, if ok' then tx + [ACK] else tx, f.payload);
  }

  lemma JudgeUnanswered(s: State, tx: seq<byte>, f: Frame, ok: bool, ok': bool)
    ensures Unanswered(Judge(s.(tx := tx), f, ok')) == Unanswered(Judge(s, f, ok))
  {
    hide Frame.Good, Grant, Refuse, Unanswered;
    RefuseUnanswered(s, tx, f, ok, ok');
    GrantUnanswered(s, tx, f, ok, ok');
  }

  lemma PromptUnanswered(s: State, tx: seq<byte>, ok: bool)
    ensures Unanswered(Prompt(s.(tx := tx), ok)) == Unanswered(Prompt(s, ok))
  {
  }

  lemma StoreUnanswered(s: State, tx: seq<byte>, len: byte, data: seq<byte>, ch: byte)
    ensures Unanswered(Store(s.(tx := tx), len, data, ch)) == Unanswered(Store(s, len, data, ch))
  {
    hide Value;
  }

  lemma CheckUnanswered(s: State, tx: seq<byte>, ch: byte, ok: bool, ok': bool)
    requires s.phase.Check?
    ensures Unanswered(InPhase(s.(tx := tx), ch, ok')) == Unanswered(InPhase(s, ch, ok))
  {
    hide Judge, Prompt, Store, Marks, LineEnd;
    if s.phase.first.Some? {
      var f := Frame(s.phase.len, s.phase.data, s.phase.first.value, ch);
      JudgeUnanswered(s.(newline := s.newline || LineEnd(ch)), tx, f, ok, ok');
    }
  }

  lemma PayloadUnanswered(s: State, tx: seq<byte>, ch: byte, ok: bool, ok': bool)
    requires s.phase.Payload? && (ch == QUESTION ==> ok' == ok)
    ensures Unanswered(InPhase(s.(tx := tx), ch, ok')) == Unanswered(InPhase(s, ch, ok))
  {
    hide Judge, Prompt, Store, LineEnd;
    PromptUnanswered(s.(phase := Payload(s.phase.len, [])), tx, ok);
    StoreUnanswered(Marks(s, ch), tx, s.phase.len, s.phase.data, ch);
  }

  lemma OutsideUnanswered(s: State, tx: seq<byte>, ch: byte, ok: bool, ok': bool)
    requires !s.phase.Check? && !s.phase.Payload? && (Prompts(s, Read(ch, ok)) ==> ok' == ok)
    ensures Unanswered(InPhase(s.(tx := tx), ch, ok')) == Unanswered(InPhase(s, ch, ok))
  {
    hide Prompt, Judge, Store, LineEnd;
    PromptUnanswered(s, tx, ok);
  }

  lemma InPhaseUnanswered(s: State, tx: seq<byte>, ch: byte, ok: bool, ok': bool)
    requires Prompts(s, Read(ch, ok)) ==> ok' == ok
    ensures Unanswered(InPhase(s.(tx := tx), ch, ok')) == Unanswered(InPhase(s, ch, ok))
  {
    hide InPhase;
    if s.phase.Check? {
      CheckUnanswered(s, tx, ch, ok, ok');
    } else if s.phase.Payload? {
      PayloadUnanswered(s, tx, ch, ok, ok');
    } else {
      OutsideUnanswered(s, tx, ch, ok, ok');
    }
  }

  lemma ByteUnanswered(s: State, tx: seq<byte>, ch: byte, ok: bool, ok': bool)
    requires Prompts(s, Read(ch, ok)) ==> ok' == ok
    ensures Unanswered(Byte(s.(tx := tx), ch, ok')) == Unanswered(Byte(s, ch, ok))
  {
    hide InPhase;
    InPhaseUnanswered(s.(hashes := if ch == HASH then s.hashes + 1 else 0), tx, ch, ok, ok');
  }

  lemma StepUnanswered(s: State, t: State, a: Event, b: Event)
    requires Unanswered(s) == Unanswered(t) && SameReads(s, a, b)
    ensures Unanswered(Step(s, a)) == Unanswered(Step(t, b))
  {
    hide Byte;
    assert t == s.(tx := t.tx);
    if a.Read? {
      ByteUnanswered(s, t.tx, a.ch, a.writable, b.writable);
      ByteUnanswered(s.(tries := s.tries + 1), t.tx, a.ch, a.writable, b.writable);
    }
  }

  /** Whichever answers to frames are lost, the same data is accepted, pending and written, and the call ends
      in the same way: only what was written to the port differs. */
  lemma {:induction false} LostAnswersChangeNothingElse(s: State, a: seq<Event>, b: seq<Event>)
    requires |a| == |b| && forall i :: 0 <= i < |a| ==> SameReads(Run(s, a[..i]), a[i], b[i])
    ensures Unanswered(Run(s, a)) == Unanswered(Run(s, b))
  {
    hide Step, SameReads;
    if a != [] {
      var n := |a| - 1;
      assert forall i :: 0 <= i < n ==> a[..n][..i] == a[..i];
      LostAnswersChangeNothingElse(s, a[..n], b[..n]);
      StepUnanswered(Run(s, a[..n]), Run(s, b[..n]), a[n], b[n]);
    }
  }
}
