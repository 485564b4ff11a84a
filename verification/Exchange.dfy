/** One session as its specification sees it: a script of packets, each sent until the one reply it
    waits for arrives, and the cutting of a batch into the data packets of that script. */
module Exchange {
  import opened Bytes
  import opened Packets

  /** A datagram long enough for the fields the sender reads of a reply. */
  type Datagram = b: seq<byte> | |b| >= 7 witness [0, 0, 0, 0, 0, 0, 0]

  datatype Event = Packet(p: Datagram) | WirelessDown | ServerCrash

  /** What one session is about. */
  datatype Job = Job(sessionId: u32, port: u16, fileName: seq<byte>, data: seq<byte>)

  /** A call that returned, or one still blocked in a receive when the events ran out. */
  datatype Outcome = Blocked | Returned(code: int)

  // ---------------------------------------------------------------- segmentation

  function Min(a: nat, b: nat): nat {
    if a < b then a else b
  }

  /** The number of data packets for `total` bytes. */
  function PacketCount(total: nat): nat {
    total / MAX_FRAME_SIZE + (if total % MAX_FRAME_SIZE != 0 then 1 else 0)
  }

  lemma CountBounds(total: nat)
    ensures MAX_FRAME_SIZE * PacketCount(total) >= total
    ensures total > 0 ==> PacketCount(total) > 0 && MAX_FRAME_SIZE * (PacketCount(total) - 1) < total
    ensures PacketCount(total) == 0 <==> total == 0
  {
  }

  /** Frame `k` of the batch. */
  function Chunk(data: seq<byte>, k: nat): (c: seq<byte>)
    requires k < PacketCount(|data|)
    ensures 0 < |c| <= MAX_FRAME_SIZE
    ensures |c| == Min(MAX_FRAME_SIZE, |data| - MAX_FRAME_SIZE * k)
  {
    CountBounds(|data|);
    data[MAX_FRAME_SIZE * k..Min(MAX_FRAME_SIZE * (k + 1), |data|)]
  }

  /** The first `k` frames, put together. */
  function Reassembled(data: seq<byte>, k: nat): seq<byte>
    requires k <= PacketCount(|data|)
  {
    if k == 0 then [] else Reassembled(data, k - 1) + Chunk(data, k - 1)
  }

  /** The frames cover the batch without gap or overlap. */
  lemma {:induction false} Segmentation(data: seq<byte>, k: nat)
    requires k <= PacketCount(|data|)
    ensures Reassembled(data, k) == data[..Min(MAX_FRAME_SIZE * k, |data|)]
    ensures k == PacketCount(|data|) ==> Reassembled(data, k) == data
  {
    CountBounds(|data|);
    if k > 0 {
      Segmentation(data, k - 1);
    }
  }

  // ---------------------------------------------------------------- the script

  predicate Fits(job: Job) {
    |job.fileName| == NAME_SIZE && PacketCount(|job.data|) <= 0xFFFF && |job.data| < 0x1_0000_0000
  }

  function Count(job: Job): nat {
    PacketCount(|job.data|)
  }

  function DataPacket(job: Job, k: nat): Packets.Packet
    requires Fits(job) && k < Count(job)
  {
    Data(TYPE_DATA, job.sessionId, |Chunk(job.data, k)|, k, Chunk(job.data, k))
  }

  /** Packet `n` of the session: the handshake, the data packets, the finish. */
  function ScriptPacket(job: Job, n: nat): seq<byte>
    requires Fits(job) && n <= Count(job) + 1
  {
    if n == 0 then Encode(Handshake(TYPE_HANDSHAKE, job.sessionId, Count(job), job.fileName))
    else if n <= Count(job) then Encode(DataPacket(job, n - 1))
    else Encode(Finish(TYPE_FINISH, job.sessionId, job.port))
  }

  /** The first `n` packets of the session. */
  function Script(job: Job, n: nat): (s: seq<seq<byte>>)
    requires Fits(job) && n <= Count(job) + 2
    ensures |s| == n
  {
    seq(n, i requires 0 <= i < n => ScriptPacket(job, i))
  }

  /** The reply that packet `n` of a session with `count` data packets waits for. */
  predicate Answers(count: nat, n: nat, p: Datagram) {
    if n == 0 then p[0] == TYPE_HANDSHAKE_ACK
    else if n <= count then p[0] == TYPE_DATA_ACK && Get16(p, 5) == n
    else p[0] == TYPE_FINISH_ACK
  }

  /** `passed` replies taken so far; a crash of the server ends the session. */
  datatype Progress = Progress(passed: nat, crashed: bool) {
    predicate Over(count: nat) {
      crashed || passed == count + 2
    }
  }

  const FRESH: Progress := Progress(0, false)

  function Next(count: nat, g: Progress, e: Event): Progress {
    if g.Over(count) then g
    else match e
      case ServerCrash => g.(crashed := true)
      case WirelessDown => g
      case Packet(p) => if Answers(count, g.passed, p) then g.(passed := g.passed + 1) else g
  }

  function Follow(count: nat, g: Progress, events: seq<Event>): Progress {
    if events == [] then g else Next(count, Follow(count, g, events[..|events| - 1]), events[|events| - 1])
  }

  /** The packet the running timer resends; after the finish ack it still resends the finish. */
  function Outstanding(job: Job, g: Progress): seq<byte>
    requires Fits(job)
  {
    ScriptPacket(job, Min(g.passed, Count(job) + 1))
  }

  lemma FollowOne(count: nat, g: Progress, events: seq<Event>, e: Event)
    ensures Follow(count, g, events + [e]) == Next(count, Follow(count, g, events), e)
  {
    assert (events + [e])[..|events|] == events;
  }

  // ---------------------------------------------------------------- success means a complete exchange

  /** The events at `at`, in order, are the replies to packets 0, 1, 2 and so on, with no crash before the last. */
  predicate Replied(count: nat, events: seq<Event>, at: seq<nat>) {
    && |at| <= count + 2
    && (forall i, j :: 0 <= i < j < |at| ==> at[i] < at[j])
    && (forall i :: 0 <= i < |at| ==> at[i] < |events| && events[at[i]].Packet? && Answers(count, i, events[at[i]].p))
    && (forall i, k :: 0 <= i < |at| && 0 <= k < at[i] ==> !events[k].ServerCrash?)
  }

  /** Where the replies were taken. */
  function Taken(count: nat, events: seq<Event>): seq<nat> {
    if events == [] then []
    else
      var n := |events| - 1;
      var before := Taken(count, events[..n]);
      if Follow(count, FRESH, events).passed > Follow(count, FRESH, events[..n]).passed then before + [n] else before
  }

  lemma {:induction false} CrashSeen(count: nat, events: seq<Event>)
    ensures Follow(count, FRESH, events).crashed ==> exists k :: 0 <= k < |events| && events[k].ServerCrash?
    ensures !Follow(count, FRESH, events).Over(count) ==> forall k :: 0 <= k < |events| ==> !events[k].ServerCrash?
  {
    if events != [] {
      CrashSeen(count, events[..|events| - 1]);
    }
  }

  lemma RepliedLonger(count: nat, events: seq<Event>, n: nat, at: seq<nat>)
    requires n <= |events| && Replied(count, events[..n], at)
    ensures Replied(count, events, at)
  {
    hide Answers;
  }

  lemma RepliedOneMore(count: nat, events: seq<Event>, n: nat, at: seq<nat>)
    requires n < |events| && Replied(count, events[..n], at) && |at| < count + 2
    requires events[n].Packet? && Answers(count, |at|, events[n].p)
    requires forall k :: 0 <= k < n ==> !events[..n][k].ServerCrash?
    ensures Replied(count, events, at + [n])
  {
    hide Answers;
    RepliedLonger(count, events, n, at);
  }

  /** Every reply the session has counted was received, in the order of the script. */
  lemma {:induction false} PassedWereReplied(count: nat, events: seq<Event>)
    ensures Replied(count, events, Taken(count, events))
    ensures |Taken(count, events)| == Follow(count, FRESH, events).passed
  {
    if events != [] {
      hide Answers, Replied;
      var n := |events| - 1;
      PassedWereReplied(count, events[..n]);
      RepliedLonger(count, events, n, Taken(count, events[..n]));
      CrashSeen(count, events[..n]);
      var g := Follow(count, FRESH, events[..n]);
      if !g.Over(count) && events[n].Packet? && Answers(count, g.passed, events[n].p) {
        PassedBound(count, events[..n]);
        RepliedOneMore(count, events, n, Taken(count, events[..n]));
      }
    }
  }

  lemma {:induction false} PassedBound(count: nat, events: seq<Event>)
    ensures Follow(count, FRESH, events).passed <= count + 2
  {
    if events != [] {
      PassedBound(count, events[..|events| - 1]);
    }
  }

  /** Conversely, replies received in the order of the script are counted, as many as there are. */
  lemma {:induction false} RepliedArePassed(count: nat, events: seq<Event>, at: seq<nat>)
    requires Replied(count, events, at)
    ensures Follow(count, FRESH, events).passed >= |at|
    decreases |events|
  {
    if at != [] {
      var n, m := |events| - 1, |at| - 1;
      if at[m] < n {
        RepliedArePassed(count, events[..n], at);
      } else {
        assert Replied(count, events[..n], at[..m]);
        RepliedArePassed(count, events[..n], at[..m]);
        CrashSeen(count, events[..n]);
      }
    }
  }

  /** A session gets as far as `k` replies exactly when the events hold, in order and before any crash, a
      handshake ack, the data acks 1, 2, ... each while its frame is outstanding, and so on up to `k`. */
  lemma ReachedIff(count: nat, events: seq<Event>, k: nat)
    ensures Follow(count, FRESH, events).passed >= k <==> exists at :: |at| == k && Replied(count, events, at)
  {
    if Follow(count, FRESH, events).passed >= k {
      var at := Taken(count, events);
      PassedWereReplied(count, events);
      assert Replied(count, events, at[..k]);
    }
    forall at | |at| == k && Replied(count, events, at)
      ensures Follow(count, FRESH, events).passed >= k
    {
      RepliedArePassed(count, events, at);
    }
  }
}
