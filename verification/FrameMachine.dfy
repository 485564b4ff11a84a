/** The receive loop of `upload_data` as a machine over phases: what the flags, counters and buffers
    of the source mean, one step for each pass of the loop. */
module FrameMachine {
  import opened Bytes
  import opened Wrappers
  import opened Crc

  const DOLLAR: byte := 0x24
  const HASH: byte := 0x23
  const QUESTION: byte := 0x3F
  const LETTER_E: byte := 0x45
  const NEWLINE: byte := 0x0A
  const RETURN: byte := 0x0D
  const ASK: byte := 0x51     // 'Q'
  const UPLOAD: byte := 0x55  // 'U'
  const ACK: byte := 0x2A     // '*'
  const NACK: byte := 0x26    // '&'

  const BUFFER: nat := 1000
  const PATIENCE: nat := 25

  /** One pass of the loop: what `read` gives, and whether a write made in that pass succeeds.
      A read that times out leaves the byte 0. */
  datatype Event = ReadFailed | Read(ch: byte, writable: bool)

  /** How the call ended. `Fault` marks the store beyond the end of a buffer, which C leaves undefined. */
  datatype Exit = Running | ReadError | NoPrompt | PromptLost | Discarded | EndOfRecord | Fault

  datatype Phase =
    | Idle
    | Length
    | Payload(len: byte, data: seq<byte>)
    | Check(len: byte, data: seq<byte>, first: Option<byte>)

  /** A frame received to its last check byte. */
  datatype Frame = Frame(len: byte, payload: seq<byte>, lo: byte, hi: byte) {
    predicate Good() {
      Matches(Covered(len, payload), lo, hi)
    }
  }

  datatype State = State(
    phase: Phase,
    hashes: nat,
    asked: bool,
    tries: nat,
    ended: bool,
    newline: bool,
    pending: seq<byte>,
    tx: seq<byte>,
    file: seq<byte>,
    log: seq<Frame>,
    exit: Exit)

  const START: State := State(Idle, 0, false, 0, false, false, [], [], [], [], Running)

  /** The bytes under the check: start of frame, length, payload. */
  function Covered(len: byte, data: seq<byte>): seq<byte> {
    [DOLLAR, len] + data
  }

  /** A byte read as a number: the source's `int length = ch`. */
  function Value(b: byte): (n: nat)
    ensures n <= 255
  {
    b as nat
  }

  predicate LineEnd(ch: byte) {
    ch == NEWLINE || ch == RETURN
  }

  /** The characters let through to the files and to the sender. */
  predicate Printable(ch: byte) {
    || 44 < ch < 58
    || 64 < ch < 91
    || 96 < ch < 126
    || ch == 9
    || ch == 10
  }

  function Filter(s: seq<byte>): seq<byte> {
    if s == [] then []
    else Filter(s[..|s| - 1]) + (if Printable(s[|s| - 1]) then [s[|s| - 1]] else [])
  }

  // ---------------------------------------------------------------- one pass

  function Written(s: State, b: byte, ok: bool): State {
    if ok then s.(tx := s.tx + [b]) else s
  }

  function Prompt(s: State, ok: bool): State {
    if ok then Written(s, UPLOAD, true).(asked := true) else s.(exit := PromptLost)
  }

  function Marks(s: State, ch: byte): State {
    s.(ended := s.ended || ch == LETTER_E, newline := s.newline || LineEnd(ch))
  }

  function Store(s: State, len: byte, data: seq<byte>, ch: byte): State {
    if |data| + 2 >= BUFFER then s.(exit := Fault)
    else if |data| + 1 == Value(len) - 2 then s.(phase := Check(len, data + [ch], None))
    else s.(phase := Payload(len, data + [ch]))
  }

  /** The two check bytes are in: answer, and keep or drop the payload. */
  function Judge(s: State, f: Frame, ok: bool): State {
    if f.Good() then Grant(s, f, ok) else Refuse(s, f, ok)
  }

  function Refuse(s: State, f: Frame, ok: bool): State {
    Written(s, NACK, ok).(phase := Idle, log := s.log + [f])
  }

  function Grant(s: State, f: Frame, ok: bool): State {
    var t := Written(s, ACK, ok).(phase := Idle, hashes := 0);
    if |s.pending| + |f.payload| > BUFFER then t.(exit := Fault)
    else Keep(t.(log := s.log + [f]), f.payload)
  }

  function Keep(s: State, payload: seq<byte>): State {
    var t := s.(pending := s.pending + payload);
    if t.ended then t.(exit := EndOfRecord)
    else if t.newline then t.(newline := false, file := t.file + Filter(t.pending), pending := [])
    else t
  }

  lemma JudgeForgetsPhase(s: State, f: Frame, ok: bool)
    ensures Judge(s.(phase := Idle), f, ok) == Judge(s, f, ok)
  {
    hide Matches, Filter;
  }

  function InPhase(s: State, ch: byte, ok: bool): State {
    match s.phase
    case Length => s.(phase := Payload(ch, []))
    case Check(len, data, first) =>
      var t := s.(newline := s.newline || LineEnd(ch));
      if first.None? then t.(phase := Check(len, data, Some(ch)))
      else Judge(t, Frame(len, data, first.value, ch), ok)
    case Idle =>
      if ch == QUESTION then Prompt(s, ok)
      else if ch == DOLLAR then s.(phase := Length)
      else Marks(s, ch)
    case Payload(len, data) =>
      if ch == QUESTION then Prompt(s.(phase := Payload(len, [])), ok)
      else if ch == DOLLAR then s
      else Store(Marks(s, ch), len, data, ch)
  }

  function Byte(s: State, ch: byte, ok: bool): State {
    if ch == 0 && !s.phase.Check? then s
    else if ch == HASH && s.hashes >= 3 then s.(hashes := s.hashes + 1, pending := [], exit := Discarded)
    else InPhase(s.(hashes := if ch == HASH then s.hashes + 1 else 0), ch, ok)
  }

  function Step(s: State, e: Event): State {
    if s.exit != Running then s
    else match e
      case ReadFailed => s.(exit := ReadError)
      case Read(ch, ok) =>
        if s.asked then Byte(s, ch, ok)
        else if s.tries >= PATIENCE then s.(tries := s.tries + 1, exit := NoPrompt)
        else Byte(s.(tries := s.tries + 1), ch, ok)
  }

  function Run(s: State, events: seq<Event>): State {
    if events == [] then s else Step(Run(s, events[..|events| - 1]), events[|events| - 1])
  }

  lemma {:induction false} RunAppend(s: State, a: seq<Event>, b: seq<Event>)
    ensures Run(s, a + b) == Run(Run(s, a), b)
  {
    hide Step;
    if b == [] {
      assert a + b == a;
    } else {
      var n := |b| - 1;
      RunAppend(s, a, b[..n]);
      assert (a + b)[..|a + b| - 1] == a + b[..n];
    }
  }

  lemma RunOne(s: State, e: Event)
    ensures Run(s, [e]) == Step(s, e)
  {
    hide Step;
    assert [e][..0] == [];
    assert Run(s, [e]) == Step(Run(s, []), e);
  }
}
