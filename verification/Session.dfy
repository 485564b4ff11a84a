/** The sender's session: packet building, the retransmission timers, and the phases of
    `session_handle`, each a loop over what the socket delivers. */
module Session {
  import opened Bytes
  import opened Wrappers
  import opened Packets
  import opened Exchange
  import opened WireFormat

  /** The timers running: each resends its packet. */
  type Timers = map<nat, seq<byte>>

  /** Exactly one timer more than `before`, and it resends `packet`. */
  ghost predicate OwnTimer(before: Timers, live: Timers, packet: seq<byte>) {
    exists t: nat | t in live :: t !in before && live == before[t := packet]
  }

  /** The packet that has to be resent once the events `inbox` have been received. */
  function Due(job: Job, inbox: seq<Event>): seq<byte>
    requires Fits(job)
  {
    Outstanding(job, Follow(Count(job), FRESH, inbox))
  }

  /** From `was` to `now` one wait was made for each of the events `at..used` and, if the call is still
      blocked, one more; at each, exactly one timer more than `before` was running, and it resent the packet
      whose reply was awaited. */
  ghost predicate Tended(job: Job, before: Timers, inbox: seq<Event>, at: nat, used: nat, blocked: bool,
                         was: seq<Timers>, now: seq<Timers>)
    requires Fits(job)
  {
    && at <= used <= |inbox| && was <= now
    && |now| == |was| + (used - at) + (if blocked then 1 else 0)
    && forall i :: |was| <= i < |now| ==> OwnTimer(before, now[i], Due(job, inbox[..at + (i - |was|)]))
  }

  /** The buffer begins with the batch. */
  ghost predicate HoldsBatch(data: array<byte>, job: Job)
    reads data
  {
    |job.data| <= data.Length && data[..|job.data|] == job.data
  }

  class Connection {
    var sessionId: u32
    var port: u16
    var noOfPackets: u16
    var noOfBytes: u32
    var totalNoOfBytes: u32
    var nextFrameNumber: u16
    var hostName: seq<byte>
    var fileName: seq<byte>
    // Datagrams handed to the transport, resends aside; running timers and what each resends.
    var sent: seq<seq<byte>>
    var timers: Timers
    var nextTimer: nat
    // The timers running at each receive.
    ghost var waits: seq<Timers>

    ghost predicate TimersNumbered()
      reads this`timers, this`nextTimer
    {
      forall t :: t in timers ==> t < nextTimer
    }

    /** The counters while frame `k` of the job is next; the byte count wraps after a short last frame. */
    ghost predicate AtFrame(job: Job, k: nat)
      reads this`sessionId, this`port, this`fileName, this`nextFrameNumber, this`noOfPackets, this`noOfBytes
    {
      && Fits(job) && k <= Count(job)
      && job.sessionId == sessionId && job.port == port && job.fileName == fileName
      && nextFrameNumber == k && noOfPackets == Count(job) - k
      && noOfBytes == (|job.data| - MAX_FRAME_SIZE * k) % 0x1_0000_0000
      && (k < Count(job) ==> noOfBytes == |job.data| - MAX_FRAME_SIZE * k > 0)
    }

    constructor (id: u32, connectPort: u16, host: seq<byte>, file: seq<byte>)
      requires |host| <= NAME_SIZE && |file| == NAME_SIZE
      ensures TimersNumbered() && timers == map[] && sent == [] && waits == []
      ensures sessionId == id && port == connectPort && hostName == host && fileName == file
    {
      sessionId, port, hostName, fileName := id, connectPort, host, file;
      noOfPackets, noOfBytes, totalNoOfBytes, nextFrameNumber := 0, 0, 0, 0;
      sent, timers, nextTimer := [], map[], 0;
      waits := [];
    }

    // -------------------------------------------------------------- building packets

    method BuildHelloRequest(packet: array<byte>)
      requires |hostName| <= NAME_SIZE && packet.Length == 17
      modifies packet
      ensures packet[..] == Encode(Hello(TYPE_HELLO_REQUEST, sessionId, 0, Padded(hostName)))
      ensures IsHello(sessionId, hostName, packet[..])
    {
      HelloByBytes(sessionId, hostName);
      LayoutRoundTrip(Hello(TYPE_HELLO_REQUEST, sessionId, 0, Padded(hostName)));
      var struct := Encode(Hello(TYPE_HELLO_REQUEST, sessionId, 0, Padded(hostName)));
      Copy(packet, struct);
    }

    method BuildHandshake(packet: array<byte>)
      requires |fileName| == NAME_SIZE && packet.Length == 17
      modifies packet
      ensures packet[..] == Encode(Handshake(TYPE_HANDSHAKE, sessionId, noOfPackets, fileName))
    {
      LayoutRoundTrip(Handshake(TYPE_HANDSHAKE, sessionId, noOfPackets, fileName));
      var struct := Encode(Handshake(TYPE_HANDSHAKE, sessionId, noOfPackets, fileName));
      Copy(packet, struct);
    }

    lemma Underway(job: Job)
      requires AtFrame(job, nextFrameNumber) && noOfPackets > 0
      ensures Fits(job) && nextFrameNumber < Count(job) && job.sessionId == sessionId
      ensures noOfBytes == |job.data| - MAX_FRAME_SIZE * nextFrameNumber
    {
    }

    /** The chunk is cut at the frame number, as long as the bytes left allow; nothing beyond the batch is read. */
    method BuildData(ghost job: Job, data: array<byte>, packet: array<byte>)
      requires AtFrame(job, nextFrameNumber) && noOfPackets > 0
      requires HoldsBatch(data, job)
      requires packet.Length == DATA_HEADER + MAX_FRAME_SIZE && packet != data
      modifies packet
      ensures packet[..DATA_HEADER + Min(MAX_FRAME_SIZE, noOfBytes)] == Encode(DataPacket(job, nextFrameNumber))
      ensures IsPacket(job, nextFrameNumber + 1, packet[..DATA_HEADER + Min(MAX_FRAME_SIZE, noOfBytes)])
    {
      Underway(job);
      hide AtFrame, PacketCount, Count, Chunk, DataPacket, IsPacket, Encode, Fits;
      DataByBytes(job, nextFrameNumber, noOfBytes);
      var length := Min(MAX_FRAME_SIZE, noOfBytes);
      var offset := nextFrameNumber * MAX_FRAME_SIZE;
      var chunk := Read(data, offset, length, |job.data|);
      var struct := Encode(Data(TYPE_DATA, sessionId, length, nextFrameNumber, chunk));
      Copy(packet, struct);
    }

    method BuildFinish(packet: array<byte>)
      requires packet.Length == 7
      modifies packet
      ensures packet[..] == Encode(Finish(TYPE_FINISH, sessionId, port))
    {
      LayoutRoundTrip(Finish(TYPE_FINISH, sessionId, port));
      var struct := Encode(Finish(TYPE_FINISH, sessionId, port));
      Copy(packet, struct);
    }

    // -------------------------------------------------------------- timers

    /** Send once, and start the timer that sends again. */
    method SendPacket(packet: seq<byte>) returns (task: nat)
      requires TimersNumbered()
      modifies this`sent, this`timers, this`nextTimer
      ensures TimersNumbered()
      ensures task !in old(timers) && timers == old(timers)[task := packet]
      ensures sent == old(sent) + [packet]
    {
      sent := sent + [packet];
      task := nextTimer;
      timers := timers[task := packet];
      nextTimer := nextTimer + 1;
    }

    /** A timer is cancelled only while it runs, so never twice. */
    method DeleteTask(task: nat)
      requires TimersNumbered() && task in timers
      modifies this`timers
      ensures TimersNumbered() && timers == old(timers) - {task}
    {
      timers := timers - {task};
    }

    /** Wait for event `at`; nothing when the events have run out, and the wait goes on. */
    method ReceivePacket(inbox: seq<Event>, at: nat) returns (e: Option<Event>)
      requires at <= |inbox|
      modifies this`waits
      ensures waits == old(waits) + [timers]
      ensures e == if at < |inbox| then Some(inbox[at]) else None
    {
      waits := waits + [timers];
      return if at < |inbox| then Some(inbox[at]) else None;
    }

    // -------------------------------------------------------------- phases

    /** Ask the common port for a port of our own. */
    method LearnNewPort(inbox: seq<Event>) returns (ret: Outcome, used: nat)
      requires TimersNumbered() && |hostName| <= NAME_SIZE
      modifies this`port, this`sent, this`timers, this`nextTimer, this`waits
      ensures TimersNumbered() && used <= |inbox|
      ensures |sent| == |old(sent)| + 1 && sent[..|old(sent)|] == old(sent)
      ensures var hello := sent[|old(sent)|];
        && IsHello(sessionId, hostName, hello)
        && HelloTended(old(timers), hello, used, ret.Blocked?, old(waits), waits)
        && (if ret.Blocked? then OwnTimer(old(timers), timers, hello) else timers == old(timers))
      ensures forall i :: 0 <= i < (if ret.Blocked? then used else used - 1) ==>
        inbox[i].WirelessDown? || (inbox[i].Packet? && inbox[i].p[0] != 2)
      ensures match ret
        case Blocked => used == |inbox| && port == old(port)
        case Returned(code) =>
          && used > 0
          && match inbox[used - 1]
             case ServerCrash => code == -1 && port == old(port)
             case Packet(p) => code == 1 && p[0] == 2 && port == U16At(p, 5)
             case WirelessDown => false
    {
      hide OwnTimer, HelloTended, Encode, U16At, IsHello;
      var request := new byte[17];
      BuildHelloRequest(request);
      var task := SendPacket(request[..]);
      ret, used := AwaitPort(old(timers), task, request[..], inbox);
    }

    /** The receive loop of the hello: anything but a response and a crash is skipped. */
    method AwaitPort(ghost before: Timers, task: nat, ghost hello: seq<byte>, inbox: seq<Event>)
      returns (ret: Outcome, used: nat)
      requires TimersNumbered() && OwnRunning(before, task, hello, timers)
      modifies this`port, this`timers, this`waits
      ensures TimersNumbered() && used <= |inbox|
      ensures HelloTended(before, hello, used, ret.Blocked?, old(waits), waits)
      ensures if ret.Blocked? then OwnTimer(before, timers, hello) else timers == before
      ensures forall i :: 0 <= i < (if ret.Blocked? then used else used - 1) ==>
        inbox[i].WirelessDown? || (inbox[i].Packet? && inbox[i].p[0] != 2)
      ensures match ret
        case Blocked => used == |inbox| && port == old(port)
        case Returned(code) =>
          && used > 0
          && match inbox[used - 1]
             case ServerCrash => code == -1 && port == old(port)
             case Packet(p) => code == 1 && p[0] == 2 && port == U16At(p, 5)
             case WirelessDown => false
    {
      IsOwnTimer(before, timers, task, hello);
      HelloNotYet(before, hello, waits);
      hide OwnTimer, OwnRunning, HelloTended, TimersNumbered, U16At, Get16;
      ghost var live := timers;
      used := 0;
      while true
        invariant used <= |inbox| && TimersNumbered()
        invariant forall i :: 0 <= i < used ==> inbox[i].WirelessDown? || (inbox[i].Packet? && inbox[i].p[0] != 2)
        invariant timers == live && port == old(port)
        invariant HelloTended(before, hello, used, false, old(waits), waits)
        decreases |inbox| - used
      {
        HelloMore(before, hello, used, old(waits), waits, timers);
        var e := ReceivePacket(inbox, used);
        if e.None? {
          return Blocked, used;
        }
        used := used + 1;
        if e.value.Packet? {
          if e.value.p[0] == TYPE_HELLO_RESPONSE {
            FieldsAreLittleEndian(e.value.p, 5);
            port := Get16(e.value.p, 5);
            DeleteTask(task);
            return Returned(1), used;
          }
        } else if e.value.ServerCrash? {
          DeleteTask(task);
          return Returned(-1), used;
        }
      }
    }

    method DoHandshake(ghost job: Job, inbox: seq<Event>) returns (ret: Outcome, used: nat)
      requires TimersNumbered() && AtFrame(job, 0)
      modifies this`sent, this`timers, this`nextTimer, this`waits
      ensures TimersNumbered() && AtFrame(job, 0) && used <= |inbox|
      ensures sent == old(sent) + [ScriptPacket(job, 0)]
      ensures Tended(job, old(timers), inbox, 0, used, ret.Blocked?, old(waits), waits)
      ensures if ret.Blocked? then OwnTimer(old(timers), timers, ScriptPacket(job, 0)) else timers == old(timers)
      ensures ret.Blocked? ==> used == |inbox|
      ensures ret in {Blocked, Returned(1), Returned(-1)}
      ensures Follow(Count(job), FRESH, inbox[..used])
           == Progress(if ret == Returned(1) then 1 else 0, ret == Returned(-1))
    {
      var buffer := new byte[17];
      BuildHandshake(buffer);
      var packet := buffer[..];
      assert packet == ScriptPacket(job, 0);
      NothingTended(job, timers, inbox, 0, waits);
      hide Encode, ScriptPacket, OwnTimer, AtFrame, Tended, PacketCount, Next, TimersNumbered, Due, Answers;
      var task := SendPacket(packet);
      IsOwnTimer(old(timers), timers, task, packet);
      ghost var live := timers;
      used := 0;
      while true
        invariant used <= |inbox| && TimersNumbered() && AtFrame(job, 0)
        invariant sent == old(sent) + [packet] && timers == live
        invariant Tended(job, old(timers), inbox, 0, used, false, old(waits), waits)
        invariant Follow(Count(job), FRESH, inbox[..used]) == FRESH
        decreases |inbox| - used
      {
        DueAt(job, inbox[..used], 0);
        TendedMore(job, old(timers), inbox, 0, used, old(waits), waits, timers);
        var e := ReceivePacket(inbox, used);
        if e.None? {
          return Blocked, used;
        }
        HandshakeSeen(Count(job), inbox, used);
        used := used + 1;
        if e.value.Packet? {
          if e.value.p[0] == TYPE_HANDSHAKE_ACK {
            DeleteTask(task);
            return Returned(1), used;
          }
        } else if e.value.ServerCrash? {
          DeleteTask(task);
          return Returned(-1), used;
        }
      }
    }

    /** One turn of the data loop: send frame `k`, and wait for the ack that asks for frame `k` + 1. */
    method SendFrame(ghost job: Job, ghost k: nat, data: array<byte>, dPkt: array<byte>, inbox: seq<Event>, at: nat)
      returns (ret: Outcome, used: nat)
      requires TimersNumbered() && AtFrame(job, k) && k < Count(job)
      requires HoldsBatch(data, job)
      requires dPkt.Length == DATA_HEADER + MAX_FRAME_SIZE && dPkt != data
      requires at <= |inbox| && Follow(Count(job), FRESH, inbox[..at]) == Progress(k + 1, false)
      modifies dPkt, this`sent, this`timers, this`nextTimer, this`waits
      modifies this`noOfPackets, this`noOfBytes, this`nextFrameNumber
      ensures TimersNumbered() && at <= used <= |inbox|
      ensures sent == old(sent) + [ScriptPacket(job, k + 1)]
      ensures Tended(job, old(timers), inbox, at, used, ret.Blocked?, old(waits), waits)
      ensures if ret.Blocked? then OwnTimer(old(timers), timers, ScriptPacket(job, k + 1)) else timers == old(timers)
      ensures ret.Blocked? ==> used == |inbox|
      ensures ret in {Blocked, Returned(1), Returned(-1)}
      ensures AtFrame(job, if ret == Returned(1) then k + 1 else k)
      ensures noOfPackets == Count(job) - (if ret == Returned(1) then k + 1 else k)
      ensures Follow(Count(job), FRESH, inbox[..used])
           == Progress(if ret == Returned(1) then k + 2 else k + 1, ret == Returned(-1))
    {
      BuildData(job, data, dPkt);
      var packet := dPkt[..DATA_HEADER + Min(MAX_FRAME_SIZE, noOfBytes)];
      assert packet == ScriptPacket(job, k + 1);
      hide Encode, ScriptPacket, OwnTimer, AtFrame, Follow, Tended, HoldsBatch, TimersNumbered;
      var task := SendPacket(packet);
      ret, used := AwaitAck(job, k, old(timers), task, inbox, at);
    }

    /** The receive loop of frame `k`: anything but its ack and a crash is skipped. */
    method AwaitAck(ghost job: Job, ghost k: nat, ghost before: Timers, task: nat, inbox: seq<Event>, at: nat)
      returns (ret: Outcome, used: nat)
      requires TimersNumbered() && AtFrame(job, k) && k < Count(job)
      requires OwnRunning(before, task, ScriptPacket(job, k + 1), timers)
      requires at <= |inbox| && Follow(Count(job), FRESH, inbox[..at]) == Progress(k + 1, false)
      modifies this`timers, this`waits, this`noOfPackets, this`noOfBytes, this`nextFrameNumber
      ensures TimersNumbered() && at <= used <= |inbox|
      ensures Tended(job, before, inbox, at, used, ret.Blocked?, old(waits), waits)
      ensures if ret.Blocked? then OwnTimer(before, timers, ScriptPacket(job, k + 1)) else timers == before
      ensures ret.Blocked? ==> used == |inbox|
      ensures ret in {Blocked, Returned(1), Returned(-1)}
      ensures AtFrame(job, if ret == Returned(1) then k + 1 else k)
      ensures noOfPackets == Count(job) - (if ret == Returned(1) then k + 1 else k)
      ensures Follow(Count(job), FRESH, inbox[..used])
           == Progress(if ret == Returned(1) then k + 2 else k + 1, ret == Returned(-1))
    {
      Counters(job, k);
      IsOwnTimer(before, timers, task, ScriptPacket(job, k + 1));
      hide OwnTimer, OwnRunning, Tended, TimersNumbered, AtFrame, PacketCount, Count, Follow, Fits, ScriptPacket;
      var e: Option<Event>;
      e, used := AwaitNumber(job, k, before, inbox, at);
      if e.None? {
        return Blocked, used;
      }
      if e.value.Packet? {
        TakeAck(job, k, task);
        return Returned(1), used;
      }
      DeleteTask(task);
      return Returned(-1), used;
    }

    /** Receive until the ack with the next number or a crash. */
    method AwaitNumber(ghost job: Job, ghost k: nat, ghost before: Timers, inbox: seq<Event>, at: nat)
      returns (e: Option<Event>, used: nat)
      requires Fits(job) && k < Count(job) && nextFrameNumber == k
      requires OwnTimer(before, timers, ScriptPacket(job, k + 1))
      requires at <= |inbox| && Follow(Count(job), FRESH, inbox[..at]) == Progress(k + 1, false)
      modifies this`waits
      ensures at <= used <= |inbox| && (e.None? ==> used == |inbox|)
      ensures e.Some? ==> e.value.Packet? || e.value.ServerCrash?
      ensures Tended(job, before, inbox, at, used, e.None?, old(waits), waits)
      ensures Follow(Count(job), FRESH, inbox[..used])
           == Progress(if e.Some? && e.value.Packet? then k + 2 else k + 1, e.Some? && e.value.ServerCrash?)
    {
      NothingTended(job, before, inbox, at, waits);
      hide OwnTimer, Tended, PacketCount, Count, Follow, Next, Get16, Fits, Due, Encode, Answers, ScriptPacket;
      used := at;
      while true
        invariant at <= used <= |inbox|
        invariant Tended(job, before, inbox, at, used, false, old(waits), waits)
        invariant Follow(Count(job), FRESH, inbox[..used]) == Progress(k + 1, false)
        decreases |inbox| - used
      {
        DueAt(job, inbox[..used], k + 1);
        TendedMore(job, before, inbox, at, used, old(waits), waits, timers);
        e := ReceivePacket(inbox, used);
        if e.None? {
          return;
        }
        AckSeen(Count(job), inbox, used, k);
        used := used + 1;
        if e.value.Packet? {
          if e.value.p[0] == TYPE_DATA_ACK && Get16(e.value.p, 5) == nextFrameNumber + 1 {
            return;
          }
        } else if e.value.ServerCrash? {
          return;
        }
      }
    }

    lemma Counters(job: Job, k: nat)
      requires AtFrame(job, k)
      ensures nextFrameNumber == k && noOfPackets == Count(job) - k
    {
    }

    /** The counters after an ack, in the widths of the source; the timer is cancelled. */
    method TakeAck(ghost job: Job, ghost k: nat, task: nat)
      requires AtFrame(job, k) && k < Count(job) && TimersNumbered() && task in timers
      modifies this`noOfPackets, this`noOfBytes, this`nextFrameNumber, this`timers
      ensures AtFrame(job, k + 1) && noOfPackets == Count(job) - (k + 1)
      ensures TimersNumbered() && timers == old(timers) - {task}
    {
      CountBounds(|job.data|);
      noOfPackets := noOfPackets - 1;
      noOfBytes := (noOfBytes - MAX_FRAME_SIZE) % 0x1_0000_0000;
      nextFrameNumber := (nextFrameNumber + 1) % 0x1_0000;
      DeleteTask(task);
    }

    method SendData(ghost job: Job, data: array<byte>, inbox: seq<Event>, at: nat)
      returns (ret: Outcome, used: nat)
      requires TimersNumbered() && AtFrame(job, 0)
      requires HoldsBatch(data, job)
      requires at <= |inbox| && Follow(Count(job), FRESH, inbox[..at]) == Progress(1, false)
      modifies this`sent, this`timers, this`nextTimer, this`waits
      modifies this`noOfPackets, this`noOfBytes, this`nextFrameNumber
      ensures TimersNumbered() && at <= used <= |inbox|
      ensures Tended(job, old(timers), inbox, at, used, ret.Blocked?, old(waits), waits)
      ensures if ret.Blocked? then OwnTimer(old(timers), timers, Due(job, inbox[..used])) else timers == old(timers)
      ensures ret.Blocked? ==> used == |inbox|
      ensures ret in {Blocked, Returned(0), Returned(-1)}
      ensures var g := Follow(Count(job), FRESH, inbox[..used]);
        && 1 <= g.passed <= Count(job) + 1
        && AtFrame(job, g.passed - 1)
        && g.crashed == (ret == Returned(-1))
        && (ret == Returned(0) <==> g.passed == Count(job) + 1)
        && sent == Behind(job, old(sent), if ret == Returned(0) then g.passed else g.passed + 1)
    {
      var dPkt := new byte[DATA_HEADER + MAX_FRAME_SIZE];
      used := at;
      ghost var k, before, start := 0, timers, sent;
      assert Fits(job) && noOfPackets == Count(job);
      NothingTended(job, timers, inbox, at, waits);
      ScriptFirst(job, start);
      hide AtFrame, Behind, ScriptPacket, OwnTimer, Tended, TimersNumbered, Follow, Count, Due, Fits, HoldsBatch;
      while noOfPackets > 0
        invariant TimersNumbered() && at <= used <= |inbox|
        invariant k <= Count(job) && AtFrame(job, k) && noOfPackets == Count(job) - k
        invariant timers == before
        invariant Tended(job, before, inbox, at, used, false, old(waits), waits)
        invariant Follow(Count(job), FRESH, inbox[..used]) == Progress(k + 1, false)
        invariant sent == Behind(job, start, k + 1)
        decreases noOfPackets
      {
        ghost var mid, seen := used, waits;
        ScriptNext(job, start, k + 1);
        var r: Outcome;
        r, used := SendFrame(job, k, data, dPkt, inbox, used);
        TendedJoin(job, before, inbox, at, mid, used, r.Blocked?, old(waits), seen, waits);
        if r != Returned(1) {
          DueAt(job, inbox[..used], k + 1);
          return r, used;
        }
        k := k + 1;
      }
      return Returned(0), used;
    }

    /** The finish packet's timer is cancelled on a crash only: after the ack it keeps running. */
    method DoFinish(ghost job: Job, inbox: seq<Event>, at: nat) returns (ret: Outcome, used: nat)
      requires TimersNumbered() && AtFrame(job, Count(job))
      requires at <= |inbox| && Follow(Count(job), FRESH, inbox[..at]) == Progress(Count(job) + 1, false)
      modifies this`sent, this`timers, this`nextTimer, this`waits
      ensures TimersNumbered() && at <= used <= |inbox|
      ensures sent == old(sent) + [ScriptPacket(job, Count(job) + 1)]
      ensures Tended(job, old(timers), inbox, at, used, ret.Blocked?, old(waits), waits)
      ensures if ret == Returned(-1) then timers == old(timers)
              else OwnTimer(old(timers), timers, ScriptPacket(job, Count(job) + 1))
      ensures ret.Blocked? ==> used == |inbox|
      ensures ret in {Blocked, Returned(1), Returned(-1)}
      ensures Follow(Count(job), FRESH, inbox[..used])
           == Progress(if ret == Returned(1) then Count(job) + 2 else Count(job) + 1, ret == Returned(-1))
    {
      var buffer := new byte[7];
      BuildFinish(buffer);
      var packet := buffer[..];
      assert packet == ScriptPacket(job, Count(job) + 1);
      hide Encode, ScriptPacket, AtFrame, Follow, PacketCount, OwnTimer, Tended;
      var task := SendPacket(packet);
      ret, used := AwaitFinishAck(job, old(timers), task, inbox, at);
    }

    /** The receive loop of the finish. */
    method AwaitFinishAck(ghost job: Job, ghost before: Timers, task: nat, inbox: seq<Event>, at: nat)
      returns (ret: Outcome, used: nat)
      requires TimersNumbered() && Fits(job)
      requires OwnRunning(before, task, ScriptPacket(job, Count(job) + 1), timers)
      requires at <= |inbox| && Follow(Count(job), FRESH, inbox[..at]) == Progress(Count(job) + 1, false)
      modifies this`timers, this`waits
      ensures TimersNumbered() && at <= used <= |inbox|
      ensures Tended(job, before, inbox, at, used, ret.Blocked?, old(waits), waits)
      ensures if ret == Returned(-1) then timers == before
              else OwnTimer(before, timers, ScriptPacket(job, Count(job) + 1))
      ensures ret.Blocked? ==> used == |inbox|
      ensures ret in {Blocked, Returned(1), Returned(-1)}
      ensures Follow(Count(job), FRESH, inbox[..used])
           == Progress(if ret == Returned(1) then Count(job) + 2 else Count(job) + 1, ret == Returned(-1))
    {
      ghost var packet := ScriptPacket(job, Count(job) + 1);
      NothingTended(job, before, inbox, at, waits);
      IsOwnTimer(before, timers, task, packet);
      hide OwnTimer, OwnRunning, Tended, TimersNumbered, PacketCount, Count, Follow, Next, ScriptPacket, Outstanding;
      hide Fits, Due, Encode, Answers;
      ghost var live := timers;
      used := at;
      while true
        invariant at <= used <= |inbox| && TimersNumbered()
        invariant timers == live
        invariant Tended(job, before, inbox, at, used, false, old(waits), waits)
        invariant Follow(Count(job), FRESH, inbox[..used]) == Progress(Count(job) + 1, false)
        decreases |inbox| - used
      {
        DueAt(job, inbox[..used], Count(job) + 1);
        TendedMore(job, before, inbox, at, used, old(waits), waits, timers);
        var e := ReceivePacket(inbox, used);
        if e.None? {
          return Blocked, used;
        }
        FinishSeen(Count(job), inbox, used);
        used := used + 1;
        if e.value.Packet? {
          if e.value.p[0] == TYPE_FINISH_ACK {
            return Returned(1), used;
          }
        } else if e.value.ServerCrash? {
          DeleteTask(task);
          return Returned(-1), used;
        }
      }
    }

    /** Handshake, data, finish. The session has sent the script up to the packet whose reply it still
        waits for, returns 0 exactly when every reply came, and -1 exactly when the server crashed first.
        At every wait one timer of its own was running, for the packet then outstanding. */
    method Handle(ghost job: Job, data: array<byte>, inbox: seq<Event>) returns (ret: Outcome, used: nat)
      requires TimersNumbered() && AtFrame(job, 0)
      requires HoldsBatch(data, job)
      modifies this`sent, this`timers, this`nextTimer, this`waits
      modifies this`noOfPackets, this`noOfBytes, this`nextFrameNumber
      ensures TimersNumbered() && used <= |inbox|
      ensures Tended(job, old(timers), inbox, 0, used, ret.Blocked?, old(waits), waits)
      ensures if ret == Returned(-1) then timers == old(timers)
              else OwnTimer(old(timers), timers, Due(job, inbox[..used]))
      ensures ret in {Blocked, Returned(0), Returned(-1)}
      ensures var g := Follow(Count(job), FRESH, inbox[..used]);
        && (ret.Blocked? ==> used == |inbox|)
        && (ret == Returned(0) <==> g.passed == Count(job) + 2)
        && (ret == Returned(-1) <==> g.crashed)
        && g.passed <= Count(job) + 2
        && sent == WithScript(job, old(sent), if ret == Returned(0) then g.passed else g.passed + 1)
      ensures OnlySessionPackets(job, old(sent), sent)
    {
      ghost var start, count, before, was := sent, Count(job), timers, waits;
      assert Fits(job);
      hide Script, Encode, ScriptPacket, Follow, PacketCount, OwnTimer, Tended, AtFrame, TimersNumbered, Due, Behind;
      hide OnlySessionPackets, WithScript, HoldsBatch, Count, Fits;
      ret, used := DoHandshake(job, inbox);
      ScriptOne(job, start);
      if ret != Returned(1) {
        DueAt(job, inbox[..used], 0);
        SentByBytes(job, start, 1);
        return;
      }
      ghost var mid, seen := used, waits;
      ret, used := SendData(job, data, inbox, used);
      TendedJoin(job, before, inbox, 0, mid, used, ret.Blocked?, was, seen, waits);
      if ret != Returned(0) {
        ScriptJoined(job, start, Follow(count, FRESH, inbox[..used]).passed + 1);
        SentByBytes(job, start, Follow(count, FRESH, inbox[..used]).passed + 1);
        return;
      }
      ScriptJoined(job, start, count + 1);
      mid, seen := used, waits;
      ret, used := DoFinish(job, inbox, used);
      TendedJoin(job, before, inbox, 0, mid, used, ret.Blocked?, was, seen, waits);
      ScriptGrows(job, start, count + 1);
      SentByBytes(job, start, count + 2);
      DueAt(job, inbox[..used], count + 1);
      if ret == Returned(1) {
        ret := Returned(0);
      }
    }
  }

  // ---------------------------------------------------------------- timers

  /** From `was` to `now` one wait was made for each of `used` events and, if the call is still blocked, one more;
      at each, exactly one timer more than `before` was running, and it resent the hello. */
  ghost predicate HelloTended(before: Timers, hello: seq<byte>, used: nat, blocked: bool,
                              was: seq<Timers>, now: seq<Timers>) {
    && was <= now && |now| == |was| + used + (if blocked then 1 else 0)
    && forall i :: |was| <= i < |now| ==> OwnTimer(before, now[i], hello)
  }

  lemma HelloNotYet(before: Timers, hello: seq<byte>, was: seq<Timers>)
    ensures HelloTended(before, hello, 0, false, was, was)
  {
  }

  lemma HelloMore(before: Timers, hello: seq<byte>, used: nat, was: seq<Timers>, now: seq<Timers>, live: Timers)
    requires HelloTended(before, hello, used, false, was, now) && OwnTimer(before, live, hello)
    ensures HelloTended(before, hello, used, true, was, now + [live])
    ensures HelloTended(before, hello, used + 1, false, was, now + [live])
  {
    hide OwnTimer;
  }

  /** The timer `task`, started on top of `before`, runs for `packet`. */
  predicate OwnRunning(before: Timers, task: nat, packet: seq<byte>, live: Timers) {
    task !in before && live == before[task := packet]
  }

  /** It is the one timer more, and cancelling it leaves the timers there were before it. */
  lemma IsOwnTimer(before: Timers, live: Timers, task: nat, packet: seq<byte>)
    requires OwnRunning(before, task, packet, live)
    ensures OwnTimer(before, live, packet) && task in live && live - {task} == before
  {
  }

  lemma NothingTended(job: Job, before: Timers, inbox: seq<Event>, at: nat, was: seq<Timers>)
    requires Fits(job) && at <= |inbox|
    ensures Tended(job, before, inbox, at, at, false, was, was)
  {
  }

  /** One more wait, before it is answered and after. */
  lemma TendedMore(job: Job, before: Timers, inbox: seq<Event>, at: nat, used: nat,
                   was: seq<Timers>, now: seq<Timers>, live: Timers)
    requires Fits(job) && Tended(job, before, inbox, at, used, false, was, now)
    requires OwnTimer(before, live, Due(job, inbox[..used]))
    ensures Tended(job, before, inbox, at, used, true, was, now + [live])
    ensures used < |inbox| ==> Tended(job, before, inbox, at, used + 1, false, was, now + [live])
  {
    hide OwnTimer, Due;
  }

  lemma TendedJoin(job: Job, before: Timers, inbox: seq<Event>, at: nat, mid: nat, used: nat, blocked: bool,
                   was: seq<Timers>, seen: seq<Timers>, now: seq<Timers>)
    requires Fits(job)
    requires Tended(job, before, inbox, at, mid, false, was, seen)
    requires Tended(job, before, inbox, mid, used, blocked, seen, now)
    ensures Tended(job, before, inbox, at, used, blocked, was, now)
  {
    hide OwnTimer, Due;
    assert forall i :: |was| <= i < |seen| ==> now[i] == seen[i];
  }

  /** While reply `n` is awaited, packet `n` is due; after the last reply the finish still is. */
  lemma DueAt(job: Job, inbox: seq<Event>, n: nat)
    requires Fits(job) && n <= Count(job) + 1
    ensures var g := Follow(Count(job), FRESH, inbox);
      g.passed == n || (n == Count(job) + 1 && g.passed == n + 1) ==> Due(job, inbox) == ScriptPacket(job, n)
  {
    hide ScriptPacket, Follow, PacketCount;
  }

  // ---------------------------------------------------------------- the script

  /** Whatever was sent between the two is the session's packets from its first on, byte by byte. */
  predicate OnlySessionPackets(job: Job, before: seq<seq<byte>>, now: seq<seq<byte>>) {
    before <= now && AreSessionPackets(job, now[|before|..])
  }

  lemma SentByBytes(job: Job, start: seq<seq<byte>>, n: nat)
    requires Fits(job) && n <= Count(job) + 2
    ensures OnlySessionPackets(job, start, WithScript(job, start, n))
  {
    hide Script, IsPacket;
    ScriptIsByBytes(job, n);
    assert (start + Script(job, n))[|start|..] == Script(job, n);
  }

  /** The struct of frame `k`, as long as the counters say. */
  lemma DataByBytes(job: Job, k: nat, bytes: nat)
    requires Fits(job) && k < Count(job) && bytes == |job.data| - MAX_FRAME_SIZE * k
    ensures var length, offset := Min(MAX_FRAME_SIZE, bytes), k * MAX_FRAME_SIZE;
      && offset + length <= |job.data|
      && var f := Encode(Data(TYPE_DATA, job.sessionId, length, k, job.data[offset..offset + length]));
      && f == Encode(DataPacket(job, k)) && |f| == DATA_HEADER + length && IsPacket(job, k + 1, f)
  {
    ScriptByBytes(job, k + 1);
    LayoutRoundTrip(DataPacket(job, k));
    hide Encode, IsPacket;
  }

  /** Hello: type 1, session id, port 0, and the name with zeros behind it. */
  predicate IsHello(id: u32, name: seq<byte>, f: seq<byte>) {
    && |f| == 17 && f[0] == 1 && U32At(f, 1) == id && U16At(f, 5) == 0
    && |name| <= 10 && f[7..7 + |name|] == name && forall i :: 7 + |name| <= i < 17 ==> f[i] == 0
  }

  lemma HelloByBytes(id: u32, name: seq<byte>)
    requires |name| <= NAME_SIZE
    ensures IsHello(id, name, Encode(Hello(TYPE_HELLO_REQUEST, id, 0, Padded(name))))
  {
    var f := Encode(Hello(TYPE_HELLO_REQUEST, id, 0, Padded(name)));
    LayoutRoundTrip(Hello(TYPE_HELLO_REQUEST, id, 0, Padded(name)));
    FieldsAreLittleEndian(f, 1);
    FieldsAreLittleEndian(f, 5);
    hide Encode, Get16, Get32, U16At, U32At;
    assert f[7..17] == Padded(name);
    assert f[7..7 + |name|] == f[7..17][..|name|] == name;
    assert forall i :: 7 <= i < 17 ==> f[i] == f[7..17][i - 7];
  }

  /** The script from its second packet to its `n`-th, sent behind `start`. */
  function Behind(job: Job, start: seq<seq<byte>>, n: nat): seq<seq<byte>>
    requires Fits(job) && 0 < n <= Count(job) + 2
  {
    start + Script(job, n)[1..]
  }

  /** The first `n` packets of the session, sent behind `start`. */
  function WithScript(job: Job, start: seq<seq<byte>>, n: nat): seq<seq<byte>>
    requires Fits(job) && n <= Count(job) + 2
  {
    start + Script(job, n)
  }

  lemma ScriptOne(job: Job, start: seq<seq<byte>>)
    requires Fits(job)
    ensures start + [ScriptPacket(job, 0)] == WithScript(job, start, 1)
  {
    hide ScriptPacket;
  }

  lemma ScriptGrows(job: Job, start: seq<seq<byte>>, n: nat)
    requires Fits(job) && n <= Count(job) + 1
    ensures WithScript(job, start, n) + [ScriptPacket(job, n)] == WithScript(job, start, n + 1)
  {
    hide ScriptPacket;
  }

  lemma ScriptJoined(job: Job, start: seq<seq<byte>>, n: nat)
    requires Fits(job) && 0 < n <= Count(job) + 2
    ensures Behind(job, start + [ScriptPacket(job, 0)], n) == WithScript(job, start, n)
  {
    hide Script, ScriptPacket;
    ScriptHead(job, n);
  }

  lemma ScriptNext(job: Job, start: seq<seq<byte>>, n: nat)
    requires Fits(job) && 0 < n < Count(job) + 2
    ensures Behind(job, start, n) + [ScriptPacket(job, n)] == Behind(job, start, n + 1)
  {
    hide ScriptPacket;
  }

  lemma ScriptFirst(job: Job, start: seq<seq<byte>>)
    requires Fits(job)
    ensures Behind(job, start, 1) == start
  {
  }

  lemma ScriptHead(job: Job, n: nat)
    requires Fits(job) && 0 < n <= Count(job) + 2
    ensures Script(job, n) == [ScriptPacket(job, 0)] + Script(job, n)[1..]
  {
    hide ScriptPacket;
  }

  lemma HandshakeSeen(count: nat, inbox: seq<Event>, n: nat)
    requires n < |inbox| && Follow(count, FRESH, inbox[..n]) == FRESH
    ensures Follow(count, FRESH, inbox[..n + 1]) == match inbox[n]
      case ServerCrash => Progress(0, true)
      case WirelessDown => FRESH
      case Packet(p) => Progress(if p[0] == TYPE_HANDSHAKE_ACK then 1 else 0, false)
  {
    hide Follow;
    FollowNext(count, inbox, n);
  }

  lemma FinishSeen(count: nat, inbox: seq<Event>, n: nat)
    requires n < |inbox| && Follow(count, FRESH, inbox[..n]) == Progress(count + 1, false)
    ensures Follow(count, FRESH, inbox[..n + 1]) == match inbox[n]
      case ServerCrash => Progress(count + 1, true)
      case WirelessDown => Progress(count + 1, false)
      case Packet(p) => Progress(if p[0] == TYPE_FINISH_ACK then count + 2 else count + 1, false)
  {
    hide Follow, Get16;
    FollowNext(count, inbox, n);
  }

  lemma AckSeen(count: nat, inbox: seq<Event>, n: nat, k: nat)
    requires n < |inbox| && k < count && Follow(count, FRESH, inbox[..n]) == Progress(k + 1, false)
    ensures Follow(count, FRESH, inbox[..n + 1]) == match inbox[n]
      case ServerCrash => Progress(k + 1, true)
      case WirelessDown => Progress(k + 1, false)
      case Packet(p) =>
        Progress(if p[0] == TYPE_DATA_ACK && Get16(p, 5) == k + 1 then k + 2 else k + 1, false)
  {
    hide Get16, Follow;
    FollowNext(count, inbox, n);
  }

  lemma FollowNext(count: nat, inbox: seq<Event>, n: nat)
    requires n < |inbox|
    ensures Follow(count, FRESH, inbox[..n + 1]) == Next(count, Follow(count, FRESH, inbox[..n]), inbox[n])
  {
    assert inbox[..n] + [inbox[n]] == inbox[..n + 1];
    FollowOne(count, FRESH, inbox[..n], inbox[n]);
  }

  /** A name in its ten-byte field. */
  function Padded(name: seq<byte>): (f: seq<byte>)
    requires |name| <= NAME_SIZE
    ensures |f| == NAME_SIZE && name <= f
  {
    name + seq(NAME_SIZE - |name|, _ => 0)
  }

  /** `memcpy` out of the middle of a buffer that is filled to `end`. */
  method Read(src: array<byte>, offset: nat, length: nat, ghost end: nat) returns (chunk: seq<byte>)
    requires offset + length <= end <= src.Length
    ensures chunk == src[..end][offset..offset + length]
  {
    chunk := src[offset..offset + length];
  }

  /** `memcpy` into the front of a buffer. */
  method Copy(dst: array<byte>, src: seq<byte>)
    requires |src| <= dst.Length
    modifies dst
    ensures dst[..|src|] == src
  {
    var i := 0;
    while i < |src|
      invariant i <= |src|
      invariant dst[..i] == src[..i]
    {
      dst[i] := src[i];
      i := i + 1;
    }
  }
}
