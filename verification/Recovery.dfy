/** Why the retransmission timer is enough: whatever the channel has lost, resending gets the session to its end. */
module Recovery {
  import opened Packets
  import opened Exchange
  import opened Protocol

  /** The actions of a channel that, from here on, only delivers what the sender resends and what is answered. */
  predicate Faithful(run: seq<Action>) {
    forall i :: 0 <= i < |run| ==> run[i].Resend? || run[i].DeliverFrame? || run[i].Receive?
  }

  /** Waiting for reply `n`, with the server one frame behind or not. */
  predicate Waits(job: Job, s: Net, n: nat)
    requires Fits(job)
  {
    && s.g == Progress(n, false) && n <= Count(job) + 1
    && (if n == 0 then s.expected == 0
        else if n <= Count(job) then s.expected == n - 1 || s.expected == n
        else s.expected == Count(job))
  }

  lemma Resent(job: Job, s: Net, n: nat)
    requires Fits(job) && Waits(job, s, n)
    ensures Act(job, s, Resend) == s.(frames := s.frames + multiset{ScriptPacket(job, n)})
  {
    hide ScriptPacket, PacketCount;
  }

  /** The packet arrives for the first time or once more; the answer is the one awaited. */
  lemma Arrives(job: Job, s: Net, n: nat)
    requires Fits(job) && Waits(job, s, n) && ScriptPacket(job, n) in s.frames
    ensures var v := Act(job, s, DeliverFrame(ScriptPacket(job, n)));
      v.g == s.g && v.expected == Min(n, Count(job)) && Reply(job, n) in v.replies
  {
    hide PacketCount, ScriptPacket, Get16, Get32, IsData, AsData, Chunk, Ack16, Plain;
    ScriptKinds(job, n);
  }

  /** Resend, delivery, reply: the session gets one packet further. */
  lemma Recovers(job: Job, s: Net, n: nat) returns (run: seq<Action>)
    requires Fits(job) && Waits(job, s, n)
    ensures Faithful(run)
    ensures var t := Behave(job, s, run);
      t.g == Progress(n + 1, false) && t.expected == Min(n, Count(job))
  {
    var f, p := ScriptPacket(job, n), Reply(job, n);
    run := [] + [Resend] + [DeliverFrame(f), Receive(p)];
    Resent(job, s, n);
    var u := s.(frames := s.frames + multiset{f});
    hide Act, Behave, PacketCount, ScriptPacket, Reply;
    Arrives(job, u, n);
    LeadReceive(job, Act(job, u, DeliverFrame(f)), n);
    BehaveTwo(job, s, [] + [Resend], DeliverFrame(f), Receive(p));
    BehaveOne(job, s, [], Resend);
    EmptyRun(job, s);
  }

  lemma FaithfulBoth(a: seq<Action>, b: seq<Action>)
    requires Faithful(a) && Faithful(b)
    ensures Faithful(a + b)
  {
  }

  /** From any wait to the end. */
  lemma {:induction false} Finishes(job: Job, s: Net, n: nat) returns (run: seq<Action>)
    requires Fits(job) && n <= Count(job) + 2
    requires if n <= Count(job) + 1 then Waits(job, s, n) else s.g == Progress(n, false)
    ensures Faithful(run) && Behave(job, s, run).g == Progress(Count(job) + 2, false)
    decreases Count(job) + 2 - n
  {
    hide PacketCount, Behave;
    if n == Count(job) + 2 {
      run := [];
      EmptyRun(job, s);
    } else {
      var first := Recovers(job, s, n);
      var rest := Finishes(job, Behave(job, s, first), n + 1);
      run := first + rest;
      BehaveAppend(job, s, first, rest);
      FaithfulBoth(first, rest);
    }
  }

  lemma NoAcksInStep(job: Job, past: Past)
    requires Fits(job) && past.NoAcks()
    ensures InStep(job, Init(job, past)) && Init(job, past).g == FRESH
  {
    hide PacketCount, ScriptPacket, Get16, IsAck;
  }

  /** A session in step with its server waits for its next reply. */
  lemma Waiting(job: Job, s: Net)
    requires Fits(job) && Sound(job, s) && InStep(job, s) && !s.g.crashed && s.g.passed <= Count(job) + 1
    ensures Waits(job, s, s.g.passed)
  {
    hide PacketCount, Expectable, Reassembled, Get16;
  }

  /** From every state that a session reaches without a crash, over a channel without acks of earlier sessions,
      there is a continuation made of resends, deliveries and replies alone in which it takes every remaining
      reply, and the whole batch has then been delivered: nothing that was lost has to come back. */
  lemma CanFinish(job: Job, past: Past, run: seq<Action>) returns (more: seq<Action>)
    requires Fits(job) && past.NoData() && past.NoAcks()
    requires !Behave(job, Init(job, past), run).g.crashed
    ensures Faithful(more)
    ensures var t := Behave(job, Init(job, past), run + more);
      t.g == Progress(Count(job) + 2, false) && t.delivered == job.data
  {
    var s := Behave(job, Init(job, past), run);
    BehaveKeeps(job, past, run);
    NoAcksInStep(job, past);
    hide Behave, PacketCount, Init, Sound, InStep, Waits;
    SenderFollows(job, Init(job, past), run);
    PassedBound(Count(job), Seen(job, Init(job, past), run));
    if s.g.passed <= Count(job) + 1 {
      Waiting(job, s);
    }
    more := Finishes(job, s, s.g.passed);
    BehaveAppend(job, Init(job, past), run, more);
    Safety(job, past, run + more);
  }
}
