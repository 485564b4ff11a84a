/** One session after another over the same channel. Sessions all have the same number, so the replies that one
    leaves behind are stale acks for the next. */
module Succession {
  import opened Bytes
  import opened Packets
  import opened Exchange
  import opened Protocol
  import Session
  import Transfer

  /** A session of the row: its job, the packets of earlier ones that still arrive, and what the channel does. */
  datatype Link = Link(job: Job, frames: multiset<seq<byte>>, run: seq<Action>) {
    predicate Sane() {
      Fits(job) && job.data != [] && Past(frames, multiset{}).NoData()
    }

    function Final(replies: multiset<Datagram>): Net
      requires Fits(job)
    {
      Behave(job, Init(job, Past(frames, replies)), run)
    }
  }

  predicate AllSane(links: seq<Link>) {
    forall i :: 0 <= i < |links| ==> links[i].Sane()
  }

  /** The replies in the channel after a row of sessions that began in a channel without any. */
  function Left(links: seq<Link>): multiset<Datagram>
    requires AllSane(links)
  {
    if links == [] then multiset{} else links[|links| - 1].Final(Left(links[..|links| - 1])).replies
  }

  // ---------------------------------------------------------------- which acks a session can leave

  ghost predicate AcksWithin(replies: multiset<Datagram>, bound: nat) {
    forall p :: p in replies && IsAck(p) ==> Get16(p, 5) <= bound
  }

  lemma AcceptWithin(job: Job, s: Net, f: seq<byte>, bound: nat)
    requires Fits(job) && Sound(job, s) && Expectable(job, s.g.passed, f)
    requires AcksWithin(s.replies, bound) && Count(job) <= bound
    ensures AcksWithin(Accept(job, s, f).replies, bound)
  {
    hide Accept, Get16, Chunk, PacketCount, ScriptPacket, Reassembled, IsData, IsAck;
    if Genuine(job, s.g.passed, f) {
      var n: nat :| n <= s.g.passed && n <= Count(job) + 1 && f == ScriptPacket(job, n);
      hide Genuine;
      var q, advances := AcceptGenuine(job, s, n, f);
    } else {
      AcceptOther(job, s, f);
    }
  }

  lemma ActWithin(job: Job, s: Net, a: Action, bound: nat)
    requires Fits(job) && Sound(job, s) && AcksWithin(s.replies, bound) && Count(job) <= bound
    ensures AcksWithin(Act(job, s, a).replies, bound)
  {
    hide Get16, IsAck, PacketCount, Accept, Expectable, Reassembled;
    match a {
      case DeliverFrame(f) =>
        if f in s.frames {
          var u := s.(frames := s.frames - multiset{f});
          RemovedFrame(job, s, f);
          ChannelKeeps(job, s, u);
          AcceptWithin(job, u, f, bound);
        }
      case _ =>
    }
  }

  lemma {:induction false} BehaveWithin(job: Job, past: Past, run: seq<Action>, bound: nat)
    requires Fits(job) && past.NoData() && AcksWithin(past.replies, bound) && Count(job) <= bound
    ensures AcksWithin(Behave(job, Init(job, past), run).replies, bound)
  {
    hide Act, Sound, PacketCount;
    if run != [] {
      var before := run[..|run| - 1];
      BehaveWithin(job, past, before, bound);
      BehaveKeeps(job, past, before);
      ActWithin(job, Behave(job, Init(job, past), before), run[|run| - 1], bound);
    }
  }

  /** The acks left by a row of sessions carry no number above the largest count among them. */
  lemma {:induction false} LeftWithin(links: seq<Link>, bound: nat)
    requires AllSane(links) && forall i :: 0 <= i < |links| ==> Count(links[i].job) <= bound
    ensures AcksWithin(Left(links), bound)
  {
    hide PacketCount, Behave, Init;
    if links != [] {
      var n := |links| - 1;
      LeftWithin(links[..n], bound);
      var x := links[n];
      assert x.Sane();
      BehaveWithin(x.job, Past(x.frames, Left(links[..n])), x.run, bound);
    }
  }

  // ---------------------------------------------------------------- when a session is safe from earlier ones

  /** A session longer, in packets, than every earlier one delivers its whole batch once its frames count as
      acked, whatever the earlier ones left in the channel. */
  lemma LongestYetDelivers(links: seq<Link>, x: Link)
    requires AllSane(links) && x.Sane()
    requires forall i :: 0 <= i < |links| ==> Count(links[i].job) < Count(x.job)
    requires x.Final(Left(links)).g.passed > Count(x.job)
    ensures x.Final(Left(links)).delivered == x.job.data
  {
    hide AcksWithin, PacketCount, Behave, Init, Treacherous;
    LongEnough(x.job);
    LeftWithin(links, Count(x.job) - 1);
    NotTreacherous(x.job, Past(x.frames, Left(links)));
    StaleHarmless(x.job, Past(x.frames, Left(links)), x.run);
  }

  lemma LongEnough(job: Job)
    requires job.data != []
    ensures Count(job) > 0
  {
    CountBounds(|job.data|);
  }

  lemma NotTreacherous(job: Job, past: Past)
    requires Count(job) > 0 && AcksWithin(past.replies, Count(job) - 1)
    ensures !Treacherous(job, past)
  {
    hide Get16, IsAck, PacketCount;
  }

  // ---------------------------------------------------------------- when it is not

  /** Every session of the row has taken all its replies, so that the code returns 0 from it. */
  predicate Succeeded(links: seq<Link>)
    requires AllSane(links)
  {
    forall i :: 0 <= i < |links| ==> links[i].Final(Left(links[..i])).g.passed == Count(links[i].job) + 2
  }

  /** The earlier sessions have succeeded, all frames of the next count as acked, and its batch is not there. */
  predicate Fooled(links: seq<Link>, x: Link)
    requires AllSane(links) && x.Sane()
  {
    && Succeeded(links)
    && x.Final(Left(links)).g.passed > Count(x.job)
    && x.Final(Left(links)).delivered != x.job.data
  }

  predicate AllSendable(jobs: seq<Job>) {
    forall i :: 0 <= i < |jobs| ==> Fits(jobs[i]) && jobs[i].data != []
  }

  predicate IsRowOf(links: seq<Link>, jobs: seq<Job>) {
    |links| == |jobs| && forall i :: 0 <= i < |links| ==> links[i].job == jobs[i]
  }

  /** The undisturbed exchanges of a row of jobs, a copy of every reply left behind. */
  function LeadRow(jobs: seq<Job>): seq<Link>
    requires AllSendable(jobs)
  {
    seq(|jobs|, i requires 0 <= i < |jobs| => Link(jobs[i], multiset{}, Lead(jobs[i], Count(jobs[i]) + 1)))
  }

  lemma LeadRowPrefix(jobs: seq<Job>, n: nat)
    requires AllSendable(jobs) && n <= |jobs|
    ensures AllSendable(jobs[..n]) && AllSane(LeadRow(jobs)) && IsRowOf(LeadRow(jobs), jobs)
    ensures LeadRow(jobs)[..n] == LeadRow(jobs[..n])
  {
    hide Lead, Fits, IsData, PacketCount;
  }

  lemma LeftByLast(links: seq<Link>, n: nat)
    requires n + 1 == |links| && AllSane(links)
    ensures Left(links) == links[n].Final(Left(links[..n])).replies
  {
    hide Behave, Init, PacketCount;
  }

  lemma SucceededOnceMore(links: seq<Link>, n: nat)
    requires n + 1 == |links| && AllSane(links)
    requires AllSane(links[..n]) && Succeeded(links[..n])
    requires links[n].Final(Left(links[..n])).g.passed == Count(links[n].job) + 2
    ensures Succeeded(links)
  {
    hide Behave, Init, PacketCount, Left;
    forall i | 0 <= i < n
      ensures links[i].Final(Left(links[..i])).g.passed == Count(links[i].job) + 2
    {
      assert links[..n][..i] == links[..i] && links[..n][i] == links[i];
    }
  }

  /** Every ack that a session of the jobs can draw. */
  ghost predicate Holds(replies: multiset<Datagram>, jobs: seq<Job>)
    requires AllSendable(jobs)
  {
    forall j, k: nat :: 0 <= j < |jobs| && k <= Count(jobs[j]) ==> Reply(jobs[j], k) in replies
  }

  lemma HoldsOneMore(some: multiset<Datagram>, all: multiset<Datagram>, jobs: seq<Job>, n: nat)
    requires n + 1 == |jobs| && AllSendable(jobs) && AllSendable(jobs[..n])
    requires Holds(some, jobs[..n]) && some <= all
    requires forall k: nat :: k <= Count(jobs[n]) ==> Reply(jobs[n], k) in all
    ensures Holds(all, jobs)
  {
    hide Reply, PacketCount;
    forall j, k: nat | 0 <= j < n && k <= Count(jobs[j])
      ensures Reply(jobs[j], k) in all
    {
      assert jobs[..n][j] == jobs[j];
      assert Reply(jobs[j], k) in some;
    }
  }

  lemma NoRow()
    ensures Succeeded(LeadRow([])) && Holds(Left(LeadRow([])), [])
  {
  }

  lemma LeadRowLast(jobs: seq<Job>, n: nat)
    requires AllSendable(jobs) && n < |jobs|
    ensures |LeadRow(jobs)| == |jobs|
    ensures LeadRow(jobs)[n] == Link(jobs[n], multiset{}, Lead(jobs[n], Count(jobs[n]) + 1))
  {
    hide Lead, PacketCount;
  }

  /** The row succeeds, and every ack of every one of its sessions is left in the channel. */
  lemma {:induction false} LeadRowRuns(jobs: seq<Job>)
    requires AllSendable(jobs)
    ensures AllSane(LeadRow(jobs)) && Succeeded(LeadRow(jobs)) && Holds(Left(LeadRow(jobs)), jobs)
  {
    hide Lead, LeadRow, Left, Behave, Init, Past.NoData, PacketCount, Reply, Succeeded, Holds;
    LeadRowPrefix(jobs, |jobs|);
    if jobs == [] {
      NoRow();
    } else {
      var row, n := LeadRow(jobs), |jobs| - 1;
      LeadRowPrefix(jobs, n);
      LeadRowRuns(jobs[..n]);
      LeadRowLast(jobs, n);
      LeftByLast(row, n);
      LeadRuns(jobs[n], Past(multiset{}, Left(row[..n])), Count(jobs[n]) + 1);
      SucceededOnceMore(row, n);
      HoldsOneMore(Left(row[..n]), Left(row), jobs, n);
    }
  }

  /** After a session of at least as many packets there is a run, without any fault but repeated replies, that
      fools the next: an earlier ack of its last number is taken for the real one. */
  lemma NoLongerIsFooled(earlier: seq<Job>, j: nat, next: Job) returns (x: Link)
    requires AllSendable(earlier) && Fits(next) && next.data != []
    requires j < |earlier| && Count(next) <= Count(earlier[j])
    ensures x.job == next && x.Sane() && AllSane(LeadRow(earlier)) && Fooled(LeadRow(earlier), x)
  {
    hide PacketCount, Behave, Init, Get16, LeadRow, ScriptPacket, Succeeded;
    LeadRowRuns(earlier);
    var left := Left(LeadRow(earlier));
    LongEnough(next);
    AckNumber(earlier[j], Count(next));
    assert Holds(left, earlier);
    assert Reply(earlier[j], Count(next)) in left;
    assert Treacherous(next, Past(multiset{}, left));
    var run := StaleHarmful(next, Past(multiset{}, left));
    x := Link(next, multiset{}, run);
  }

  /** A session is safe from the acks of the earlier ones exactly when it has more packets than each of them. */
  lemma NextIsSafeIff(earlier: seq<Job>, next: Job)
    requires AllSendable(earlier) && Fits(next) && next.data != []
    ensures (forall links: seq<Link>, x: Link ::
              IsRowOf(links, earlier) && x.job == next && AllSane(links) && x.Sane() ==> !Fooled(links, x))
      <==> (forall j :: 0 <= j < |earlier| ==> Count(earlier[j]) < Count(next))
  {
    hide PacketCount, Behave, Init, LeadRow, Left, Succeeded;
    if j :| 0 <= j < |earlier| && Count(next) <= Count(earlier[j]) {
      var x := NoLongerIsFooled(earlier, j, next);
      LeadRowPrefix(earlier, |earlier|);
      assert IsRowOf(LeadRow(earlier), earlier);
    } else {
      forall links: seq<Link>, x: Link |
        IsRowOf(links, earlier) && x.job == next && AllSane(links) && x.Sane()
        ensures !Fooled(links, x)
      {
        if x.Final(Left(links)).g.passed > Count(next) {
          LongestYetDelivers(links, x);
        }
      }
    }
  }

  /** The timers that finished sessions leave running resend nothing that carries data. */
  lemma LeftTimersCarryNoData(timers: Session.Timers, id: u32, port: u16, t: nat)
    requires Transfer.OnlyFinishesAdded(map[], timers, id, port) && t in timers
    ensures !IsData(timers[t])
  {
    LayoutRoundTrip(Finish(TYPE_FINISH, id, port));
  }
}
