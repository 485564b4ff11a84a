/** The outer loops of `session_transfer`: fill the buffer, send it as one session, clear it, go on. */
module Transfer {
  import opened Bytes
  import opened Packets
  import opened Exchange
  import opened Batching
  import opened Sequences
  import Session

  /** A session that was tried: its batch, how it ended, and how many of its packets were sent. */
  datatype Tried = Tried(job: Job, ret: Outcome, packets: nat)

  function Data(tried: seq<Tried>): (d: seq<seq<byte>>)
    ensures |d| == |tried|
  {
    seq(|tried|, i requires 0 <= i < |tried| => tried[i].job.data)
  }

  /** The datagrams of the sessions tried, in order. */
  function Datagrams(tried: seq<Tried>): seq<seq<byte>>
    requires forall i :: 0 <= i < |tried| ==> Sane(tried[i])
  {
    if tried == [] then []
    else
      assert Sane(tried[|tried| - 1]);
      Datagrams(tried[..|tried| - 1]) + Script(tried[|tried| - 1].job, tried[|tried| - 1].packets)
  }

  /** A session that succeeded has sent its whole script. */
  predicate Sane(t: Tried) {
    && Fits(t.job) && t.packets <= Count(t.job) + 2
    && (t.ret == Returned(0) ==> t.packets == Count(t.job) + 2)
  }

  lemma SmallBatchFits(job: Job)
    requires |job.fileName| == NAME_SIZE && Sendable(job.data)
    ensures Fits(job)
  {
    hide PacketCount;
  }

  /** The counters of a new session for what the buffer holds. */
  method Prepare(conn: Session.Connection, total: nat, ghost job: Job)
    requires |job.fileName| == NAME_SIZE && Sendable(job.data) && total == |job.data|
    requires job.sessionId == conn.sessionId && job.port == conn.port && job.fileName == conn.fileName
    modifies conn`noOfBytes, conn`totalNoOfBytes, conn`noOfPackets, conn`nextFrameNumber
    ensures conn.AtFrame(job, 0) && conn.totalNoOfBytes == total
  {
    conn.noOfBytes := total;
    conn.totalNoOfBytes := conn.noOfBytes;
    conn.noOfPackets := conn.noOfBytes / MAX_FRAME_SIZE;
    if conn.noOfBytes % MAX_FRAME_SIZE != 0 {
      conn.noOfPackets := conn.noOfPackets + 1;
    }
    conn.nextFrameNumber := 0;
  }

  /** One session for the contents of the buffer; its result is recorded here and ignored by the source. */
  method SendBatch(conn: Session.Connection, buf: Buffer, inbox: seq<Event>) returns (t: Tried, used: nat)
    requires conn.TimersNumbered() && |conn.fileName| == NAME_SIZE
    requires buf.Valid() && Sendable(buf.Contents())
    modifies conn`sent, conn`timers, conn`nextTimer, conn`waits
    modifies conn`noOfBytes, conn`totalNoOfBytes, conn`noOfPackets, conn`nextFrameNumber
    ensures conn.TimersNumbered() && used <= |inbox|
    ensures t.job == Job(conn.sessionId, conn.port, conn.fileName, buf.Contents()) && Sane(t)
    ensures conn.sent == old(conn.sent) + Script(t.job, t.packets)
    ensures var g := Follow(Count(t.job), FRESH, inbox[..used]);
      && (t.ret == Returned(0) <==> g.passed == Count(t.job) + 2)
      && (t.ret == Returned(-1) <==> g.crashed)
      && (t.ret.Blocked? ==> used == |inbox|)
    ensures t.ret.Returned? ==> OnlyFinishesAdded(old(conn.timers), conn.timers, conn.sessionId, conn.port)
  {
    var data := buf.sessionData[..buf.numBytes];
    var job := Job(conn.sessionId, conn.port, conn.fileName, data);
    SmallBatchFits(job);
    Prepare(conn, buf.numBytes, job);
    FinishDue(job);
    hide Script, Follow, PacketCount, Session.Due, Encode, Session.Tended;
    var ret: Outcome;
    var before := |conn.sent|;
    ghost var timers := conn.timers;
    ret, used := conn.Handle(job, buf.sessionData, inbox);
    t := Tried(job, ret, |conn.sent| - before);
    if ret == Returned(0) {
      OneMoreFinish(timers, conn.timers, job, inbox[..used]);
    } else if ret == Returned(-1) {
      SameLeft(timers, conn.sessionId, conn.port);
    }
  }

  // ---------------------------------------------------------------- the timers that sessions leave behind

  /** Every timer running now ran before, for the same packet, or resends the finish packet. */
  predicate OnlyFinishesAdded(before: Session.Timers, now: Session.Timers, id: u32, port: u16) {
    forall t :: t in now ==> (t in before && before[t] == now[t]) || now[t] == Encode(Finish(TYPE_FINISH, id, port))
  }

  lemma SameLeft(timers: Session.Timers, id: u32, port: u16)
    ensures OnlyFinishesAdded(timers, timers, id, port)
  {
    hide Encode;
  }

  lemma LeftTwice(a: Session.Timers, b: Session.Timers, c: Session.Timers, id: u32, port: u16)
    requires OnlyFinishesAdded(a, b, id, port) && OnlyFinishesAdded(b, c, id, port)
    ensures OnlyFinishesAdded(a, c, id, port)
  {
    hide Encode;
  }

  lemma FinishDue(job: Job)
    requires Fits(job)
    ensures ScriptPacket(job, Count(job) + 1) == Encode(Finish(TYPE_FINISH, job.sessionId, job.port))
  {
    hide Encode, PacketCount;
  }

  lemma OneMoreFinish(before: Session.Timers, now: Session.Timers, job: Job, inbox: seq<Event>)
    requires Fits(job) && Session.OwnTimer(before, now, Session.Due(job, inbox))
    requires Follow(Count(job), FRESH, inbox).passed == Count(job) + 2
    ensures OnlyFinishesAdded(before, now, job.sessionId, job.port)
  {
    Session.DueAt(job, inbox, Count(job) + 1);
    FinishDue(job);
    hide Encode, PacketCount, Session.Due, ScriptPacket, Follow;
  }

  predicate AllSane(tried: seq<Tried>) {
    forall i :: 0 <= i < |tried| ==> Sane(tried[i])
  }

  /** The last session tried never returned. */
  predicate Stuck(tried: seq<Tried>) {
    tried != [] && tried[|tried| - 1].ret.Blocked?
  }

  lemma DataAppend(a: seq<Tried>, b: seq<Tried>)
    ensures Data(a + b) == Data(a) + Data(b)
  {
  }

  lemma SaneAppend(a: seq<Tried>, b: seq<Tried>)
    requires AllSane(a) && AllSane(b)
    ensures AllSane(a + b)
  {
    hide Sane;
  }

  lemma DatagramsLast(tried: seq<Tried>, t: Tried)
    requires AllSane(tried) && Sane(t)
    ensures AllSane(tried + [t]) && Datagrams(tried + [t]) == Datagrams(tried) + Script(t.job, t.packets)
  {
    hide Script, Sane;
    assert (tried + [t])[..|tried|] == tried;
  }

  lemma {:induction false} DatagramsAppend(a: seq<Tried>, b: seq<Tried>)
    requires AllSane(a) && AllSane(b)
    ensures AllSane(a + b) && Datagrams(a + b) == Datagrams(a) + Datagrams(b)
    decreases |b|
  {
    SaneAppend(a, b);
    if b == [] {
      NothingAdded(a);
      NothingAdded(Datagrams(a));
    } else {
      var before, t := b[..|b| - 1], b[|b| - 1];
      assert Sane(t) && b == before + [t];
      hide Script, Sane, Datagrams;
      SaneAppend(a, before);
      DatagramsAppend(a, before);
      DatagramsLast(before, t);
      DatagramsLast(a + before, t);
      Reassociate(a, before, [t]);
      Reassociate(Datagrams(a), Datagrams(before), Script(t.job, t.packets));
    }
  }

  lemma DatagramsOne(t: Tried)
    requires Sane(t)
    ensures Datagrams([t]) == Script(t.job, t.packets)
  {
    hide Script, Sane;
    assert [t][..0] == [];
  }

  /** One filling of the buffer, and its session unless nothing was read. */
  method Turn(conn: Session.Connection, buf: Buffer, input: seq<byte>, inbox: seq<Event>)
    returns (rest: seq<byte>, full: bool, tried: seq<Tried>, used: nat)
    requires conn.TimersNumbered() && |conn.fileName| == NAME_SIZE && buf.Valid() && buf.Contents() == []
    modifies conn`sent, conn`timers, conn`nextTimer, conn`waits
    modifies conn`noOfBytes, conn`totalNoOfBytes, conn`noOfPackets, conn`nextFrameNumber
    modifies buf, buf.sessionData
    ensures conn.TimersNumbered() && buf.Valid() && used <= |inbox| && AllSane(tried)
    ensures conn.sent == old(conn.sent) + Datagrams(tried)
    ensures var f := Fill([], input);
      && rest == f.rest && full == (|f.content| >= SESSION_SIZE)
      && Data(tried) == (if f.content == [] then [] else [f.content])
      && buf.Contents() == if Stuck(tried) then f.content else []
    ensures !Stuck(tried) ==> OnlyFinishesAdded(old(conn.timers), conn.timers, conn.sessionId, conn.port)
  {
    FillBounds([], input);
    hide Fill, PacketCount, Script;
    ghost var f := Fill([], input);
    rest := buf.ReadBatch(input);
    full := buf.numBytes >= SESSION_SIZE;
    tried, used := [], 0;
    if buf.numBytes > 0 {
      var t: Tried;
      t, used := SendBatch(conn, buf, inbox);
      DatagramsOne(t);
      tried := [t];
      if t.ret.Returned? {
        buf.Reset();
      }
    }
  }

  /** The read and send loop up to the next end of file: it sends the batches of the burst, in order, and
      stops early only inside a session that does not return. */
  method Drain(conn: Session.Connection, buf: Buffer, burst: seq<byte>, inbox: seq<Event>)
    returns (tried: seq<Tried>, used: nat)
    requires conn.TimersNumbered() && |conn.fileName| == NAME_SIZE && buf.Valid() && buf.Contents() == []
    modifies conn`sent, conn`timers, conn`nextTimer, conn`waits
    modifies conn`noOfBytes, conn`totalNoOfBytes, conn`noOfPackets, conn`nextFrameNumber
    modifies buf, buf.sessionData
    ensures conn.TimersNumbered() && buf.Valid() && used <= |inbox| && AllSane(tried)
    ensures conn.sent == old(conn.sent) + Datagrams(tried)
    ensures if Stuck(tried) then Data(tried) <= Cut(burst) else Data(tried) == Cut(burst) && buf.Contents() == []
    ensures !Stuck(tried) ==> OnlyFinishesAdded(old(conn.timers), conn.timers, conn.sessionId, conn.port)
  {
    var rest, full := burst, true;
    tried, used := [], 0;
    ghost var sent, timers := conn.sent, conn.timers;
    NothingCut(sent, burst);
    SameLeft(timers, conn.sessionId, conn.port);
    hide Tracked, ToCut, Datagrams, AllSane, Fill, Cut, Data, OnlyFinishesAdded, Stuck;
    hide PacketCount;
    while full
      invariant conn.TimersNumbered() && buf.Valid() && buf.Contents() == [] && used <= |inbox|
      invariant Tracked(sent, tried, conn.sent) && ToCut(tried, burst, rest, full)
      invariant OnlyFinishesAdded(timers, conn.timers, conn.sessionId, conn.port)
      decreases full, |rest|
    {
      FullShrinks(rest);
      var more: seq<Tried>;
      var n: nat;
      ghost var mid, before, input := conn.timers, conn.sent, rest;
      rest, full, more, n := Turn(conn, buf, rest, inbox[used..]);
      TrackedMore(sent, tried, before, more, conn.sent);
      IsTracked(sent, tried, before);
      ToCutMore(tried, burst, input, more, rest, full);
      used := used + n;
      tried := tried + more;
      if Stuck(more) {
        IsTracked(sent, tried, conn.sent);
        return;
      }
      LeftTwice(timers, mid, conn.timers, conn.sessionId, conn.port);
    }
    IsTracked(sent, tried, conn.sent);
    AllCut(tried, burst, rest);
  }

  /** A full buffer has taken something from its input. */
  lemma FullShrinks(input: seq<byte>)
    ensures var f := Fill([], input); |f.content| >= SESSION_SIZE ==> |f.rest| < |input|
  {
    FillBounds([], input);
  }

  /** What is left of the burst is still to be cut, if the last filling was full. */
  ghost predicate ToCut(tried: seq<Tried>, burst: seq<byte>, rest: seq<byte>, full: bool) {
    !Stuck(tried) && Cut(burst) == (if full then Data(tried) + Cut(rest) else Data(tried))
  }

  lemma NothingCut(sent: seq<seq<byte>>, burst: seq<byte>)
    ensures Tracked(sent, [], sent) && ToCut([], burst, burst, true)
  {
    NothingTried(sent);
    NothingAdded(Cut(burst));
  }

  lemma ToCutMore(tried: seq<Tried>, burst: seq<byte>, input: seq<byte>, more: seq<Tried>, rest: seq<byte>, full: bool)
    requires ToCut(tried, burst, input, true) && AllSane(tried) && AllSane(more)
    requires var f := Fill([], input);
      && rest == f.rest && full == (|f.content| >= SESSION_SIZE)
      && Data(more) == (if f.content == [] then [] else [f.content])
    ensures if Stuck(more) then Stuck(tried + more) && Data(tried + more) <= Cut(burst)
            else ToCut(tried + more, burst, rest, full)
  {
    CutTurn(Data(tried), input);
    TriedMore([], tried, more);
    hide Fill, Cut, Data, Datagrams, AllSane;
  }

  lemma AllCut(tried: seq<Tried>, burst: seq<byte>, rest: seq<byte>)
    requires ToCut(tried, burst, rest, false)
    ensures !Stuck(tried) && Data(tried) == Cut(burst)
  {
  }

  lemma CutTurn(done: seq<seq<byte>>, input: seq<byte>)
    ensures var f := Fill([], input);
      var more := done + (if f.content == [] then [] else [f.content]);
      && done + Cut(input) == (if |f.content| >= SESSION_SIZE then more + Cut(f.rest) else more)
      && more <= done + Cut(input)
  {
    var f := Fill([], input);
    var first := if f.content == [] then [] else [f.content];
    CutFirst(input);
    hide Fill, Cut;
    if |f.content| >= SESSION_SIZE {
      Reassociate(done, first, Cut(f.rest));
      assert done + first <= done + first + Cut(f.rest);
    }
  }

  lemma CutFirst(input: seq<byte>)
    ensures var f := Fill([], input);
      var first := if f.content == [] then [] else [f.content];
      Cut(input) == if |f.content| >= SESSION_SIZE then first + Cut(f.rest) else first
  {
    FillBounds([], input);
    hide Fill;
    NothingAdded(if Fill([], input).content == [] then [] else [Fill([], input).content]);
  }

  lemma NothingTried(sent: seq<seq<byte>>)
    ensures AllSane([]) && Data([]) == [] && sent + Datagrams([]) == sent
  {
  }

  lemma TriedMore(sent: seq<seq<byte>>, tried: seq<Tried>, more: seq<Tried>)
    requires AllSane(tried) && AllSane(more)
    ensures AllSane(tried + more) && Data(tried + more) == Data(tried) + Data(more)
    ensures sent + Datagrams(tried + more) == sent + Datagrams(tried) + Datagrams(more)
    ensures Stuck(more) ==> Stuck(tried + more)
    ensures !Stuck(tried) && !Stuck(more) ==> !Stuck(tried + more)
  {
    DataAppend(tried, more);
    DatagramsAppend(tried, more);
    hide Datagrams, Data, AllSane, Sane;
    Reassociate(sent, Datagrams(tried), Datagrams(more));
  }

  /** All the input there is, burst by burst: what reaches the sessions is exactly the batches of the
      input, each tried once and in order, and nothing is left in the buffer. */
  method TransferAll(conn: Session.Connection, buf: Buffer, bursts: seq<seq<byte>>, inbox: seq<Event>)
    returns (tried: seq<Tried>, used: nat)
    requires conn.TimersNumbered() && |conn.fileName| == NAME_SIZE && buf.Valid() && buf.Contents() == []
    modifies conn`sent, conn`timers, conn`nextTimer, conn`waits
    modifies conn`noOfBytes, conn`totalNoOfBytes, conn`noOfPackets, conn`nextFrameNumber
    modifies buf, buf.sessionData
    ensures conn.TimersNumbered() && buf.Valid() && used <= |inbox| && AllSane(tried)
    ensures conn.sent == old(conn.sent) + Datagrams(tried)
    ensures if Stuck(tried) then Data(tried) <= Batches(bursts)
            else Data(tried) == Batches(bursts) && buf.Contents() == []
    ensures !Stuck(tried) ==> OnlyFinishesAdded(old(conn.timers), conn.timers, conn.sessionId, conn.port)
  {
    tried, used := [], 0;
    ghost var sent, timers := conn.sent, conn.timers;
    NothingDone(sent, bursts);
    SameLeft(timers, conn.sessionId, conn.port);
    hide Tracked, ToDo, Datagrams, AllSane, Cut, Data, Batches, OnlyFinishesAdded, Stuck;
    hide PacketCount;
    var i := 0;
    while i < |bursts|
      invariant i <= |bursts| && used <= |inbox|
      invariant conn.TimersNumbered() && buf.Valid() && buf.Contents() == []
      invariant Tracked(sent, tried, conn.sent) && ToDo(tried, bursts, i)
      invariant OnlyFinishesAdded(timers, conn.timers, conn.sessionId, conn.port)
    {
      var more: seq<Tried>;
      var n: nat;
      ghost var mid, before := conn.timers, conn.sent;
      more, n := Drain(conn, buf, bursts[i], inbox[used..]);
      TrackedMore(sent, tried, before, more, conn.sent);
      IsTracked(sent, tried, before);
      ToDoMore(tried, bursts, i, more);
      used := used + n;
      tried := tried + more;
      if Stuck(more) {
        IsTracked(sent, tried, conn.sent);
        return;
      }
      LeftTwice(timers, mid, conn.timers, conn.sessionId, conn.port);
      i := i + 1;
    }
    IsTracked(sent, tried, conn.sent);
    AllDone(tried, bursts);
  }

  // ---------------------------------------------------------------- where the loop stands

  ghost predicate Tracked(sent: seq<seq<byte>>, tried: seq<Tried>, now: seq<seq<byte>>) {
    AllSane(tried) && now == sent + Datagrams(tried)
  }

  /** The bursts from `i` on are still to come, and the batches of the others have been tried. */
  ghost predicate ToDo(tried: seq<Tried>, bursts: seq<seq<byte>>, i: nat) {
    i <= |bursts| && !Stuck(tried) && Data(tried) + Batches(bursts[i..]) == Batches(bursts)
  }

  lemma NothingDone(sent: seq<seq<byte>>, bursts: seq<seq<byte>>)
    ensures Tracked(sent, [], sent) && ToDo([], bursts, 0)
  {
    NothingTried(sent);
    NothingAdded(Batches(bursts));
    assert bursts[0..] == bursts;
  }

  lemma IsTracked(sent: seq<seq<byte>>, tried: seq<Tried>, now: seq<seq<byte>>)
    requires Tracked(sent, tried, now)
    ensures AllSane(tried) && now == sent + Datagrams(tried)
  {
  }

  lemma TrackedMore(sent: seq<seq<byte>>, tried: seq<Tried>, before: seq<seq<byte>>, more: seq<Tried>,
                    now: seq<seq<byte>>)
    requires Tracked(sent, tried, before) && AllSane(more) && now == before + Datagrams(more)
    ensures Tracked(sent, tried + more, now)
  {
    TriedMore(sent, tried, more);
  }

  lemma ToDoMore(tried: seq<Tried>, bursts: seq<seq<byte>>, i: nat, more: seq<Tried>)
    requires ToDo(tried, bursts, i) && i < |bursts| && AllSane(tried) && AllSane(more)
    requires if Stuck(more) then Data(more) <= Cut(bursts[i]) else Data(more) == Cut(bursts[i])
    ensures if Stuck(more) then Stuck(tried + more) && Data(tried + more) <= Batches(bursts)
            else ToDo(tried + more, bursts, i + 1)
  {
    BatchesNext(Data(tried), bursts, i);
    TriedMore([], tried, more);
    hide Data, Cut, Datagrams, AllSane;
    ShorterStill(Data(tried), Data(more), Cut(bursts[i]), Batches(bursts[i + 1..]));
  }

  lemma AllDone(tried: seq<Tried>, bursts: seq<seq<byte>>)
    requires ToDo(tried, bursts, |bursts|)
    ensures !Stuck(tried) && Data(tried) == Batches(bursts)
  {
    NoBatches(bursts);
    NothingAdded(Data(tried));
  }

  lemma BatchesNext(done: seq<seq<byte>>, bursts: seq<seq<byte>>, i: nat)
    requires i < |bursts|
    ensures done + Batches(bursts[i..]) == done + Cut(bursts[i]) + Batches(bursts[i + 1..])
  {
    assert bursts[i..][1..] == bursts[i + 1..];
    hide Cut;
    Reassociate(done, Cut(bursts[i]), Batches(bursts[i + 1..]));
  }

  lemma NoBatches(bursts: seq<seq<byte>>)
    ensures Batches(bursts[|bursts|..]) == []
  {
  }

  lemma ShorterStill(done: seq<seq<byte>>, more: seq<seq<byte>>, all: seq<seq<byte>>, rest: seq<seq<byte>>)
    requires more <= all
    ensures done + more <= done + all + rest
  {
  }
}
