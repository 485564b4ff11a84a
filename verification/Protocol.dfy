/** Stop-and-wait over a channel that loses, repeats and reorders, in both directions.

    The receiving end is not in the repository. It is an assumption here: it appends a data packet
    only when its sequence number is the one expected, and acks with the number expected next. */
module Protocol {
  import opened Bytes
  import opened Packets
  import opened Exchange

  /** The sender's progress, the two directions of the channel, and the receiving end. */
  datatype Net = Net(
    g: Progress,
    frames: multiset<seq<byte>>,
    replies: multiset<Datagram>,
    expected: nat,
    delivered: seq<byte>)

  datatype Action =
    | Resend
    | EarlierFrame(f: seq<byte>)
    | LoseFrame(f: seq<byte>)
    | RepeatFrame(f: seq<byte>)
    | DeliverFrame(f: seq<byte>)
    | LoseReply(p: Datagram)
    | RepeatReply(p: Datagram)
    | Stray(p: Datagram)
    | Receive(p: Datagram)
    | GoDown
    | Crash

  // ---------------------------------------------------------------- the assumed receiver

  function Ack16(job: Job, n: nat): Datagram
    requires Fits(job)
  {
    LayoutRoundTrip(Ack(TYPE_DATA_ACK, job.sessionId, n % 0x1_0000));
    Encode(Ack(TYPE_DATA_ACK, job.sessionId, n % 0x1_0000))
  }

  function Plain(kind: byte): Datagram {
    [kind, 0, 0, 0, 0, 0, 0]
  }

  predicate IsAck(p: Datagram) {
    p[0] == TYPE_DATA_ACK
  }

  predicate IsData(f: seq<byte>) {
    |f| >= DATA_HEADER && f[0] == TYPE_DATA && |f| >= DATA_HEADER + Get32(f, 5)
  }

  function Accept(job: Job, s: Net, f: seq<byte>): Net
    requires Fits(job)
  {
    if IsData(f) then
      var d := AsData(f);
      if d.seqNum == s.expected % 0x1_0000 then
        s.(expected := s.expected + 1, delivered := s.delivered + d.data,
           replies := s.replies + multiset{Ack16(job, s.expected + 1)})
      else s.(replies := s.replies + multiset{Ack16(job, s.expected)})
    else if f != [] && f[0] == TYPE_HANDSHAKE then s.(replies := s.replies + multiset{Plain(TYPE_HANDSHAKE_ACK)})
    else if f != [] && f[0] == TYPE_FINISH then s.(replies := s.replies + multiset{Plain(TYPE_FINISH_ACK)})
    else s
  }

  // ---------------------------------------------------------------- the actions

  /** The sender takes an event, and sends the next packet when it moves on. */
  function Take(job: Job, s: Net, e: Event): Net
    requires Fits(job)
  {
    var g := Next(Count(job), s.g, e);
    if g.passed > s.g.passed && g.passed <= Count(job) + 1 then
      s.(g := g, frames := s.frames + multiset{ScriptPacket(job, g.passed)})
    else s.(g := g)
  }

  /** An action that the state does not allow changes nothing. */
  function Act(job: Job, s: Net, a: Action): Net
    requires Fits(job)
  {
    match a
    case Resend => if s.g.crashed then s else s.(frames := s.frames + multiset{Outstanding(job, s.g)})
    case EarlierFrame(f) => if IsData(f) then s else s.(frames := s.frames + multiset{f})
    case LoseFrame(f) => s.(frames := s.frames - multiset{f})
    case RepeatFrame(f) => if f in s.frames then s.(frames := s.frames + multiset{f}) else s
    case DeliverFrame(f) => if f in s.frames then Accept(job, s.(frames := s.frames - multiset{f}), f) else s
    case LoseReply(p) => s.(replies := s.replies - multiset{p})
    case RepeatReply(p) => if p in s.replies then s.(replies := s.replies + multiset{p}) else s
    case Stray(p) => if !IsAck(p) then s.(replies := s.replies + multiset{p}) else s
    case Receive(p) => if p in s.replies then Take(job, s.(replies := s.replies - multiset{p}), Packet(p)) else s
    case GoDown => Take(job, s, WirelessDown)
    case Crash => Take(job, s, ServerCrash)
  }

  function Behave(job: Job, s: Net, run: seq<Action>): Net
    requires Fits(job)
  {
    if run == [] then s else Act(job, Behave(job, s, run[..|run| - 1]), run[|run| - 1])
  }

  /** What earlier sessions left in the channel. Of their packets, the finish is resent for ever, because its
      timer is never cancelled; data packets are assumed to be gone. */
  datatype Past = Past(frames: multiset<seq<byte>>, replies: multiset<Datagram>) {
    predicate NoData() {
      forall f :: f in frames ==> !IsData(f)
    }

    predicate NoAcks() {
      forall p :: p in replies ==> !IsAck(p)
    }
  }

  /** The handshake is on its way. */
  function Init(job: Job, past: Past): Net
    requires Fits(job)
  {
    Net(FRESH, past.frames + multiset{ScriptPacket(job, 0)}, past.replies, 0, [])
  }

  // ---------------------------------------------------------------- the invariant

  ghost predicate Genuine(job: Job, limit: nat, f: seq<byte>)
    requires Fits(job)
  {
    exists n: nat | n <= limit && n <= Count(job) + 1 :: f == ScriptPacket(job, n)
  }

  /** A packet of this session, or one that carries no data. */
  ghost predicate Expectable(job: Job, limit: nat, f: seq<byte>)
    requires Fits(job)
  {
    Genuine(job, limit, f) || !IsData(f)
  }

  /** The frame the sender is waiting to have acked. */
  function NextFrame(job: Job, g: Progress): nat {
    if g.passed == 0 then 0 else Min(g.passed - 1, Count(job))
  }

  /** Only data packets already sent are in flight, and the receiver holds the first `expected` frames, no
      more than were sent. */
  ghost predicate Sound(job: Job, s: Net)
    requires Fits(job)
  {
    && (forall f :: f in s.frames ==> Expectable(job, s.g.passed, f))
    && s.expected <= Count(job) && s.expected <= s.g.passed
    && s.delivered == Reassembled(job.data, s.expected)
  }

  /** With acks of this session only, the sender never runs ahead of the receiver. */
  ghost predicate InStep(job: Job, s: Net) {
    && (forall p :: p in s.replies && IsAck(p) ==> Get16(p, 5) <= s.expected)
    && NextFrame(job, s.g) <= s.expected
  }

  /** With stale acks around, none of them for the last frame, it cannot finish ahead of the receiver. */
  ghost predicate NotFooled(job: Job, s: Net) {
    && (forall p :: p in s.replies && IsAck(p) && Get16(p, 5) == Count(job) ==> s.expected == Count(job))
    && (s.g.passed > Count(job) ==> s.expected == Count(job))
  }

  lemma ScriptKinds(job: Job, n: nat)
    requires Fits(job) && n <= Count(job) + 1
    ensures var f := ScriptPacket(job, n);
      && f != []
      && (1 <= n <= Count(job) ==> IsData(f) && AsData(f).seqNum == n - 1 && AsData(f).data == Chunk(job.data, n - 1))
      && (n == 0 ==> !IsData(f) && f[0] == TYPE_HANDSHAKE)
      && (n == Count(job) + 1 ==> !IsData(f) && f[0] == TYPE_FINISH)
  {
    if 1 <= n <= Count(job) {
      LayoutRoundTrip(DataPacket(job, n - 1));
    }
    hide Get32, Get16, Le32, Le16, Chunk, PacketCount;
  }

  lemma AckNumber(job: Job, n: nat)
    requires Fits(job) && n <= Count(job)
    ensures IsAck(Ack16(job, n)) && Get16(Ack16(job, n), 5) == n
  {
    LayoutRoundTrip(Ack(TYPE_DATA_ACK, job.sessionId, n % 0x1_0000));
  }

  /** The receiver's part: a genuine packet brings the frame expected, or nothing; either way an answer. */
  lemma AcceptGenuine(job: Job, s: Net, n: nat, f: seq<byte>) returns (q: Datagram, advances: bool)
    requires Fits(job) && s.expected <= Count(job) && s.expected <= s.g.passed
    requires n <= s.g.passed && n <= Count(job) + 1 && f == ScriptPacket(job, n)
    ensures advances ==>
      && s.expected < Count(job) && s.expected < s.g.passed && IsAck(q) && Get16(q, 5) == s.expected + 1
      && Accept(job, s, f) == s.(expected := s.expected + 1, delivered := s.delivered + Chunk(job.data, s.expected),
                                 replies := s.replies + multiset{q})
    ensures !advances ==>
      && (IsAck(q) ==> Get16(q, 5) == s.expected)
      && Accept(job, s, f) == s.(replies := s.replies + multiset{q})
  {
    hide Get32, Get16, Chunk, PacketCount, Ack16, ScriptPacket, IsData, AsData;
    ScriptKinds(job, n);
    AckNumber(job, s.expected);
    advances := 1 <= n <= Count(job) && n - 1 == s.expected;
    if advances {
      AckNumber(job, s.expected + 1);
      q := Ack16(job, s.expected + 1);
    } else if n == 0 {
      q := Plain(TYPE_HANDSHAKE_ACK);
    } else if n <= Count(job) {
      q := Ack16(job, s.expected);
    } else {
      q := Plain(TYPE_FINISH_ACK);
    }
  }

  /** A packet without data advances nothing and draws no ack. */
  lemma AcceptOther(job: Job, s: Net, f: seq<byte>)
    requires Fits(job) && !IsData(f)
    ensures ChannelOnly(job, s, Accept(job, s, f))
  {
    hide Get16, Get32, Genuine, IsData;
  }

  lemma AcceptKeeps(job: Job, s: Net, f: seq<byte>)
    requires Fits(job) && Sound(job, s) && Expectable(job, s.g.passed, f)
    ensures Sound(job, Accept(job, s, f))
    ensures InStep(job, s) ==> InStep(job, Accept(job, s, f))
    ensures NotFooled(job, s) ==> NotFooled(job, Accept(job, s, f))
  {
    hide Accept, Get16, Chunk, PacketCount, ScriptPacket, Reassembled, IsData;
    if Genuine(job, s.g.passed, f) {
      var n: nat :| n <= s.g.passed && n <= Count(job) + 1 && f == ScriptPacket(job, n);
      hide Genuine;
      var q, advances := AcceptGenuine(job, s, n, f);
      if advances {
        ReassembledNext(job.data, s.expected);
      }
    } else {
      AcceptOther(job, s, f);
      ChannelKeeps(job, s, Accept(job, s, f));
    }
  }

  lemma ReassembledNext(data: seq<byte>, k: nat)
    requires k < PacketCount(|data|)
    ensures Reassembled(data, k + 1) == Reassembled(data, k) + Chunk(data, k)
  {
  }

  lemma ExpectableLater(job: Job, limit: nat, more: nat, f: seq<byte>)
    requires Fits(job) && limit <= more && Expectable(job, limit, f)
    ensures Expectable(job, more, f)
  {
    hide ScriptPacket, PacketCount, IsData;
  }

  lemma SentIsGenuine(job: Job, n: nat, limit: nat)
    requires Fits(job) && n <= limit && n <= Count(job) + 1
    ensures Genuine(job, limit, ScriptPacket(job, n)) && Expectable(job, limit, ScriptPacket(job, n))
  {
    hide ScriptPacket, PacketCount, IsData;
  }

  /** The sender's part: it moves on only on an ack for the frame it waits for. */
  lemma TakeKeeps(job: Job, s: Net, e: Event)
    requires Fits(job) && Sound(job, s)
    ensures Sound(job, Take(job, s, e))
    ensures InStep(job, s) && (e.Packet? && IsAck(e.p) ==> Get16(e.p, 5) <= s.expected) ==> InStep(job, Take(job, s, e))
    ensures NotFooled(job, s) && (e.Packet? && IsAck(e.p) && Get16(e.p, 5) == Count(job) ==> s.expected == Count(job))
            ==> NotFooled(job, Take(job, s, e))
  {
    hide ScriptPacket, PacketCount, Expectable, Reassembled, Get16;
    var g := Next(Count(job), s.g, e);
    forall f | f in s.frames
      ensures Expectable(job, g.passed, f)
    {
      ExpectableLater(job, s.g.passed, g.passed, f);
    }
    if g.passed > s.g.passed && g.passed <= Count(job) + 1 {
      SentIsGenuine(job, g.passed, g.passed);
    }
  }

  /** Losing, repeating and reordering: nothing new in the channel but packets of this session, packets without data,
      and replies that are no acks. */
  ghost predicate ChannelOnly(job: Job, s: Net, t: Net)
    requires Fits(job)
  {
    && t.g == s.g && t.expected == s.expected && t.delivered == s.delivered
    && (forall f :: f in t.frames ==> f in s.frames || Expectable(job, s.g.passed, f))
    && (forall p :: p in t.replies ==> p in s.replies || !IsAck(p))
  }

  lemma ChannelKeeps(job: Job, s: Net, t: Net)
    requires Fits(job) && Sound(job, s) && ChannelOnly(job, s, t)
    ensures Sound(job, t)
    ensures InStep(job, s) ==> InStep(job, t)
    ensures NotFooled(job, s) ==> NotFooled(job, t)
  {
    hide PacketCount, Expectable, Reassembled, Get16, NextFrame, IsAck;
  }

  lemma RemovedFrame(job: Job, s: Net, f: seq<byte>)
    requires Fits(job)
    ensures ChannelOnly(job, s, s.(frames := s.frames - multiset{f}))
  {
    hide Expectable, IsAck;
  }

  lemma RemovedReply(job: Job, s: Net, p: Datagram)
    requires Fits(job)
    ensures ChannelOnly(job, s, s.(replies := s.replies - multiset{p}))
  {
    hide Expectable, IsAck;
  }

  lemma DeliverKeeps(job: Job, s: Net, f: seq<byte>)
    requires Fits(job) && Sound(job, s) && f in s.frames
    ensures var t := Act(job, s, DeliverFrame(f));
      Sound(job, t) && (InStep(job, s) ==> InStep(job, t)) && (NotFooled(job, s) ==> NotFooled(job, t))
  {
    assert Expectable(job, s.g.passed, f);
    hide Accept, InStep, NotFooled, Sound, Expectable, ChannelOnly;
    var u := s.(frames := s.frames - multiset{f});
    RemovedFrame(job, s, f);
    ChannelKeeps(job, s, u);
    AcceptKeeps(job, u, f);
  }

  lemma AckBound(job: Job, s: Net, p: Datagram)
    requires Fits(job) && p in s.replies && IsAck(p)
    ensures InStep(job, s) ==> Get16(p, 5) <= s.expected
    ensures NotFooled(job, s) && Get16(p, 5) == Count(job) ==> s.expected == Count(job)
  {
  }

  lemma ReceiveKeeps(job: Job, s: Net, p: Datagram)
    requires Fits(job) && Sound(job, s) && p in s.replies
    ensures var t := Act(job, s, Receive(p));
      Sound(job, t) && (InStep(job, s) ==> InStep(job, t)) && (NotFooled(job, s) ==> NotFooled(job, t))
  {
    hide Take, IsAck, InStep, NotFooled, Sound, ChannelOnly, Get16;
    var u := s.(replies := s.replies - multiset{p});
    RemovedReply(job, s, p);
    ChannelKeeps(job, s, u);
    if IsAck(p) {
      AckBound(job, s, p);
    }
    TakeKeeps(job, u, Packet(p));
  }

  lemma AddedFrame(job: Job, s: Net, f: seq<byte>)
    requires Fits(job) && (f in s.frames || Expectable(job, s.g.passed, f))
    ensures ChannelOnly(job, s, s.(frames := s.frames + multiset{f}))
  {
    hide Expectable, IsAck;
  }

  lemma AddedReply(job: Job, s: Net, p: Datagram)
    requires Fits(job) && (p in s.replies || !IsAck(p))
    ensures ChannelOnly(job, s, s.(replies := s.replies + multiset{p}))
  {
    hide Expectable, IsAck;
  }

  lemma NothingChanged(job: Job, s: Net)
    requires Fits(job)
    ensures ChannelOnly(job, s, s)
  {
    hide Expectable, IsAck;
  }

  lemma OtherKeeps(job: Job, s: Net, a: Action)
    requires Fits(job) && !a.DeliverFrame? && !a.Receive? && !a.GoDown? && !a.Crash?
    ensures ChannelOnly(job, s, Act(job, s, a))
  {
    hide ChannelOnly, PacketCount, Genuine, ScriptPacket, IsAck, IsData, Accept, Take;
    NothingChanged(job, s);
    match a {
      case Resend =>
        SentIsGenuine(job, Min(s.g.passed, Count(job) + 1), s.g.passed);
        AddedFrame(job, s, Outstanding(job, s.g));
      case EarlierFrame(f) =>
        if !IsData(f) {
          AddedFrame(job, s, f);
        }
      case LoseFrame(f) => RemovedFrame(job, s, f);
      case LoseReply(p) => RemovedReply(job, s, p);
      case RepeatFrame(f) =>
        if f in s.frames {
          AddedFrame(job, s, f);
        }
      case RepeatReply(p) =>
        if p in s.replies {
          AddedReply(job, s, p);
        }
      case Stray(p) =>
        if !IsAck(p) {
          AddedReply(job, s, p);
        }
      case _ =>
    }
  }

  lemma ActKeeps(job: Job, s: Net, a: Action)
    requires Fits(job) && Sound(job, s)
    ensures Sound(job, Act(job, s, a))
    ensures InStep(job, s) ==> InStep(job, Act(job, s, a))
    ensures NotFooled(job, s) ==> NotFooled(job, Act(job, s, a))
  {
    hide Sound, InStep, NotFooled, Accept, Take, Outstanding, ChannelOnly;
    match a {
      case DeliverFrame(f) =>
        if f in s.frames {
          DeliverKeeps(job, s, f);
        }
      case Receive(p) =>
        if p in s.replies {
          ReceiveKeeps(job, s, p);
        }
      case GoDown => TakeKeeps(job, s, WirelessDown);
      case Crash => TakeKeeps(job, s, ServerCrash);
      case _ =>
        OtherKeeps(job, s, a);
        ChannelKeeps(job, s, Act(job, s, a));
    }
  }

  lemma InitSound(job: Job, past: Past)
    requires Fits(job) && past.NoData()
    ensures Sound(job, Init(job, past))
  {
    SentIsGenuine(job, 0, 0);
    hide IsData, ScriptPacket, PacketCount, Genuine;
  }

  lemma {:induction false} BehaveKeeps(job: Job, past: Past, run: seq<Action>)
    requires Fits(job) && past.NoData()
    ensures var s, t := Init(job, past), Behave(job, Init(job, past), run);
      && Sound(job, t)
      && (InStep(job, s) ==> InStep(job, t))
      && (NotFooled(job, s) ==> NotFooled(job, t))
  {
    hide Act, Sound, InStep, NotFooled, Init;
    InitSound(job, past);
    if run != [] {
      BehaveKeeps(job, past, run[..|run| - 1]);
      ActKeeps(job, Behave(job, Init(job, past), run[..|run| - 1]), run[|run| - 1]);
    }
  }

  // ---------------------------------------------------------------- safety

  /** Whatever an earlier session left in the reply direction, only a prefix of the batch is ever delivered. */
  lemma PrefixDelivered(job: Job, past: Past, run: seq<Action>)
    requires Fits(job) && past.NoData()
    ensures var t := Behave(job, Init(job, past), run);
      t.expected <= Count(job) && t.delivered == job.data[..Min(MAX_FRAME_SIZE * t.expected, |job.data|)]
  {
    hide Behave, PacketCount, Reassembled;
    BehaveKeeps(job, past, run);
    Segmentation(job.data, Behave(job, Init(job, past), run).expected);
  }

  /** Over every interleaving, from a channel without acks of an earlier session: what has been delivered
      is a prefix of the batch, the receiver is at most one frame ahead of the sender, and once every
      packet is acked the whole batch has been delivered, once and in order. */
  lemma Safety(job: Job, past: Past, run: seq<Action>)
    requires Fits(job) && past.NoData()
    requires past.NoAcks()
    ensures var t := Behave(job, Init(job, past), run);
      && t.delivered == job.data[..Min(MAX_FRAME_SIZE * t.expected, |job.data|)]
      && NextFrame(job, t.g) <= t.expected <= NextFrame(job, t.g) + 1
      && (t.g.passed > Count(job) ==> t.delivered == job.data)
  {
    hide Behave, PacketCount, Reassembled;
    BehaveKeeps(job, past, run);
    PrefixDelivered(job, past, run);
    Segmentation(job.data, Behave(job, Init(job, past), run).expected);
  }

  // ---------------------------------------------------------------- acks of an earlier session

  /** The ack test ignores the session id, so an old ack numbered like the last frame of this session is
      taken for it. Such an ack is the only one that can do harm at the end of the exchange. */
  predicate Treacherous(job: Job, past: Past) {
    exists p :: p in past.replies && IsAck(p) && Get16(p, 5) == Count(job)
  }

  /** Every frame of the batch has been acked, as far as the sender can tell. */
  predicate Complete(job: Job, past: Past, run: seq<Action>)
    requires Fits(job)
  {
    Behave(job, Init(job, past), run).g.passed > Count(job)
  }

  lemma StaleHarmless(job: Job, past: Past, run: seq<Action>)
    requires Fits(job) && past.NoData() && job.data != [] && !Treacherous(job, past)
    ensures Complete(job, past, run) ==> Behave(job, Init(job, past), run).delivered == job.data
  {
    hide Behave, Reassembled, Get16;
    CountBounds(|job.data|);
    hide PacketCount;
    BehaveKeeps(job, past, run);
    Segmentation(job.data, Count(job));
  }

  /** An undisturbed exchange up to the reply to packet `k`, with a copy of every reply left behind. */
  function Lead(job: Job, k: nat): seq<Action>
    requires Fits(job) && k <= Count(job) + 1
  {
    (if k == 0 then [] else Lead(job, k - 1)) + Turn(job, k)
  }

  function Turn(job: Job, k: nat): seq<Action>
    requires Fits(job) && k <= Count(job) + 1
  {
    [DeliverFrame(ScriptPacket(job, k)), RepeatReply(Reply(job, k)), Receive(Reply(job, k))]
  }

  lemma BehaveOne(job: Job, s: Net, run: seq<Action>, a: Action)
    requires Fits(job)
    ensures Behave(job, s, run + [a]) == Act(job, Behave(job, s, run), a)
  {
    hide Act;
    assert (run + [a])[..|run|] == run;
  }

  lemma BehaveTwo(job: Job, s: Net, run: seq<Action>, a: Action, b: Action)
    requires Fits(job)
    ensures Behave(job, s, run + [a, b]) == Act(job, Act(job, Behave(job, s, run), a), b)
  {
    hide Act, Behave;
    assert run + [a, b] == run + [a] + [b];
    BehaveOne(job, s, run, a);
    BehaveOne(job, s, run + [a], b);
  }

  /** The reply the receiver gives to packet `k` when it comes in turn. */
  function Reply(job: Job, k: nat): Datagram
    requires Fits(job)
  {
    if k == 0 then Plain(TYPE_HANDSHAKE_ACK) else if k <= Count(job) then Ack16(job, k) else Plain(TYPE_FINISH_ACK)
  }

  lemma ReplyAnswers(job: Job, k: nat)
    requires Fits(job) && k <= Count(job) + 1
    ensures Answers(Count(job), k, Reply(job, k))
  {
    if 0 < k <= Count(job) {
      AckNumber(job, k);
    }
  }

  lemma LeadDeliver(job: Job, s: Net, k: nat)
    requires Fits(job) && k <= Count(job) + 1
    requires s.expected == (if k == 0 then 0 else k - 1) && ScriptPacket(job, k) in s.frames
    ensures var v := Act(job, s, DeliverFrame(ScriptPacket(job, k)));
      v.g == s.g && v.expected == Min(k, Count(job)) && v.replies == s.replies + multiset{Reply(job, k)}
  {
    hide PacketCount, ScriptPacket, Get16, Get32, IsData, AsData, Chunk, Ack16, Plain;
    ScriptKinds(job, k);
  }

  lemma LeadReceive(job: Job, v: Net, k: nat)
    requires Fits(job) && k <= Count(job) + 1 && v.g == Progress(k, false) && Reply(job, k) in v.replies
    ensures var t := Act(job, v, Receive(Reply(job, k)));
      && t.g == Progress(k + 1, false) && t.expected == v.expected
      && t.replies == v.replies - multiset{Reply(job, k)}
      && (k <= Count(job) ==> ScriptPacket(job, k + 1) in t.frames)
  {
    hide PacketCount, ScriptPacket, Answers, Reply;
    ReplyAnswers(job, k);
  }

  lemma LeadTurn(job: Job, s: Net, k: nat)
    requires Fits(job) && k <= Count(job) + 1 && s.g == Progress(k, false)
    requires s.expected == (if k == 0 then 0 else k - 1) && ScriptPacket(job, k) in s.frames
    ensures var t := Behave(job, s, Turn(job, k));
      && t.g == Progress(k + 1, false) && t.expected == Min(k, Count(job))
      && t.replies == s.replies + multiset{Reply(job, k)}
      && (k <= Count(job) ==> ScriptPacket(job, k + 1) in t.frames)
  {
    var d, p := DeliverFrame(ScriptPacket(job, k)), Reply(job, k);
    LeadDeliver(job, s, k);
    var v := Act(job, s, d);
    Copied(job, v, p);
    LeadReceive(job, Act(job, v, RepeatReply(p)), k);
    hide Act, Behave, PacketCount, ScriptPacket, Reply;
    assert [] + [d] + [RepeatReply(p), Receive(p)] == Turn(job, k);
    BehaveTwo(job, s, [] + [d], RepeatReply(p), Receive(p));
    BehaveOne(job, s, [], d);
    EmptyRun(job, s);
    OneStays(s.replies, p);
  }

  lemma Copied(job: Job, s: Net, p: Datagram)
    requires Fits(job) && p in s.replies
    ensures Act(job, s, RepeatReply(p)) == s.(replies := s.replies + multiset{p})
  {
    hide ScriptPacket, PacketCount;
  }

  lemma OneStays<T>(m: multiset<T>, x: T)
    ensures m + multiset{x} + multiset{x} - multiset{x} == m + multiset{x}
  {
  }

  lemma {:induction false} BehaveAppend(job: Job, s: Net, a: seq<Action>, b: seq<Action>)
    requires Fits(job)
    ensures Behave(job, s, a + b) == Behave(job, Behave(job, s, a), b)
  {
    hide Act;
    if b == [] {
      assert a + b == a;
    } else {
      var n := |b| - 1;
      BehaveAppend(job, s, a, b[..n]);
      assert (a + b)[..|a + b| - 1] == a + b[..n];
    }
  }

  /** After the lead every packet up to `k` has been replied to and every reply is still in the channel. */
  lemma {:induction false} LeadRuns(job: Job, past: Past, k: nat)
    requires Fits(job) && k <= Count(job) + 1
    ensures var t := Behave(job, Init(job, past), Lead(job, k));
      && t.g == Progress(k + 1, false) && t.expected == Min(k, Count(job)) && past.replies <= t.replies
      && (forall n: nat :: n <= k ==> Reply(job, n) in t.replies)
      && (k <= Count(job) ==> ScriptPacket(job, k + 1) in t.frames)
  {
    hide Behave, Act, PacketCount, ScriptPacket, Reply, Turn;
    var s := Init(job, past);
    var before := if k == 0 then [] else Lead(job, k - 1);
    if k == 0 {
      EmptyRun(job, s);
    } else {
      LeadRuns(job, past, k - 1);
    }
    BehaveAppend(job, s, before, Turn(job, k));
    LeadTurn(job, Behave(job, s, before), k);
  }

  lemma EmptyRun(job: Job, s: Net)
    requires Fits(job)
    ensures Behave(job, s, []) == s
  {
  }

  /** With such an ack in the channel there is a run in which every packet counts as acked while the last
      frame has never been delivered. */
  lemma StaleHarmful(job: Job, past: Past) returns (run: seq<Action>)
    requires Fits(job) && past.NoData() && job.data != [] && Treacherous(job, past)
    ensures Complete(job, past, run) && Behave(job, Init(job, past), run).delivered != job.data
  {
    hide Behave, Reassembled, Get16, ScriptPacket, Lead;
    var p :| p in past.replies && IsAck(p) && Get16(p, 5) == Count(job);
    CountBounds(|job.data|);
    hide PacketCount;
    var k := Count(job) - 1;
    run := Lead(job, k) + [GoDown, Receive(p)];
    LeadRuns(job, past, k);
    BehaveKeeps(job, past, Lead(job, k));
    BehaveTwo(job, Init(job, past), Lead(job, k), GoDown, Receive(p));
    Segmentation(job.data, k);
  }

  /** A completed exchange means a complete delivery, whatever the interleaving, exactly when no ack left
      over from an earlier session carries the number of this session's last frame. */
  lemma CompleteIff(job: Job, past: Past)
    requires Fits(job) && past.NoData() && job.data != []
    ensures (forall run :: Complete(job, past, run) ==> Behave(job, Init(job, past), run).delivered == job.data)
      <==> !Treacherous(job, past)
  {
    hide Behave, PacketCount, Treacherous, Init;
    if Treacherous(job, past) {
      var run := StaleHarmful(job, past);
    } else {
      forall run
        ensures Complete(job, past, run) ==> Behave(job, Init(job, past), run).delivered == job.data
      {
        StaleHarmless(job, past, run);
      }
    }
  }

  // ---------------------------------------------------------------- the code in the protocol

  /** What the sender's receive call returns in one action, if anything. */
  function NewlySeen(s: Net, a: Action): seq<Event> {
    match a
    case Receive(p) => if p in s.replies then [Packet(p)] else []
    case GoDown => [WirelessDown]
    case Crash => [ServerCrash]
    case _ => []
  }

  /** What the sender's receive calls return in the course of a run. */
  function Seen(job: Job, s: Net, run: seq<Action>): seq<Event>
    requires Fits(job)
  {
    if run == [] then []
    else
      var before := run[..|run| - 1];
      Seen(job, s, before) + NewlySeen(Behave(job, s, before), run[|run| - 1])
  }

  lemma ActProgress(job: Job, s: Net, a: Action)
    requires Fits(job)
    ensures Act(job, s, a).g == var seen := NewlySeen(s, a); if seen == [] then s.g else Next(Count(job), s.g, seen[0])
  {
    hide Next, ScriptPacket, PacketCount, Ack16, IsData, AsData, IsAck;
  }

  lemma {:induction false} SenderFollows(job: Job, s: Net, run: seq<Action>)
    requires Fits(job) && s.g == FRESH
    ensures Behave(job, s, run).g == Follow(Count(job), FRESH, Seen(job, s, run))
  {
    if run != [] {
      var before, a := run[..|run| - 1], run[|run| - 1];
      var u, seen, news := Behave(job, s, before), Seen(job, s, before), NewlySeen(Behave(job, s, before), a);
      assert Behave(job, s, run) == Act(job, u, a) && Seen(job, s, run) == seen + news;
      hide Act, Next, PacketCount, Behave, Seen, Follow;
      SenderFollows(job, s, before);
      ActProgress(job, u, a);
      if news == [] {
        assert seen + news == seen;
      } else {
        assert news == [news[0]];
        FollowOne(Count(job), FRESH, seen, news[0]);
      }
    } else {
      assert Behave(job, s, run) == s && Seen(job, s, run) == [];
    }
  }

  /** A session that returns 0 on what the channel let it see has delivered its whole batch. */
  lemma SuccessDelivers(job: Job, past: Past, run: seq<Action>)
    requires Fits(job) && past.NoData() && job.data != [] && !Treacherous(job, past)
    requires Follow(Count(job), FRESH, Seen(job, Init(job, past), run)).passed == Count(job) + 2
    ensures Behave(job, Init(job, past), run).delivered == job.data
  {
    hide Behave, Follow, Seen, PacketCount, Treacherous;
    SenderFollows(job, Init(job, past), run);
    StaleHarmless(job, past, run);
  }
}
