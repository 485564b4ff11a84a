/** From the serial line to the far end: the receiver's record output is the sender's standard input. */
module EndToEnd {
  import opened Bytes
  import opened Exchange
  import opened ReceiverSafety
  import F = FrameMachine
  import B = Batching
  import P = Protocol
  import S = Succession

  /** Only whitelisted characters are emitted, and NUL is not one of them. */
  lemma {:induction false} FilterIsNulFree(s: seq<byte>)
    ensures B.NulFree(F.Filter(s))
    ensures forall i :: 0 <= i < |F.Filter(s)| ==> F.Printable(F.Filter(s)[i])
  {
    if s != [] {
      FilterIsNulFree(s[..|s| - 1]);
    }
  }

  /** For every stream of reads and every way the output is cut by ends of file on its way to the sender:
      no character is lost to string termination, and the batches, with what is still pending, are the
      filtered payloads of the accepted frames. */
  lemma BatchesAreTheRecords(asks: bool, events: seq<F.Event>, bursts: seq<seq<byte>>)
    requires B.Flatten(bursts) == F.Run(F.Written(F.START, F.ASK, asks), events).file
    ensures var s := F.Run(F.Written(F.START, F.ASK, asks), events);
      && B.Flatten(B.Batches(bursts)) == s.file
      && (s.exit != F.Discarded ==> B.Flatten(B.Batches(bursts)) + F.Filter(s.pending) == F.Filter(GoodData(s.log)))
      && (forall i :: 0 <= i < |B.Batches(bursts)| ==> B.Sendable(B.Batches(bursts)[i]))
  {
    hide F.Run, F.Filter, B.Batches, B.Flatten, B.NulFree, B.Sendable, GoodData;
    var s := F.Run(F.Written(F.START, F.ASK, asks), events);
    OutputConserved(asks, events);
    FilterIsNulFree(GoodData(s.log));
    PrefixIsNulFree(s.file, F.Filter(GoodData(s.log)));
    B.BatchesConserve(bursts);
  }

  lemma PrefixIsNulFree(a: seq<byte>, b: seq<byte>)
    requires a <= b && B.NulFree(b)
    ensures B.NulFree(a)
  {
    assert forall i :: 0 <= i < |a| ==> a[i] == b[i];
  }

  /** What a row of sessions has delivered, each over a channel with the replies that the earlier ones left. */
  function Deliveries(links: seq<S.Link>): seq<seq<byte>>
    requires S.AllSane(links)
  {
    seq(|links|, i requires 0 <= i < |links| =>
      SanePrefix(links, i); links[i].Final(S.Left(links[..i])).delivered)
  }

  lemma SanePrefix(links: seq<S.Link>, n: nat)
    requires n <= |links| && S.AllSane(links)
    ensures S.AllSane(links[..n])
  {
  }

  /** Session `i` has had all its frames acked, and no old ack in its channel carries the number of the last. */
  ghost predicate Completes(links: seq<S.Link>, i: nat)
    requires i < |links| && S.AllSane(links)
  {
    SanePrefix(links, i);
    var x, left := links[i], S.Left(links[..i]);
    x.Final(left).g.passed > Count(x.job) && !P.Treacherous(x.job, P.Past(x.frames, left))
  }

  /** The whole chain: if the batches of the receiver's output are sent in a row of sessions that all complete,
      and none of them meets an old ack for its last frame, the far end receives exactly the receiver's output. */
  lemma OutputDelivered(asks: bool, events: seq<F.Event>, bursts: seq<seq<byte>>, links: seq<S.Link>)
    requires B.Flatten(bursts) == F.Run(F.Written(F.START, F.ASK, asks), events).file
    requires S.AllSane(links) && |links| == |B.Batches(bursts)|
    requires forall i :: 0 <= i < |links| ==> links[i].job.data == B.Batches(bursts)[i] && Completes(links, i)
    ensures B.Flatten(Deliveries(links)) == F.Run(F.Written(F.START, F.ASK, asks), events).file
  {
    hide F.Run, F.Filter, B.Batches, B.Flatten, GoodData, P.Behave, P.Init, P.Treacherous, PacketCount, S.Left;
    BatchesAreTheRecords(asks, events, bursts);
    forall i | 0 <= i < |links|
      ensures Deliveries(links)[i] == B.Batches(bursts)[i]
    {
      SanePrefix(links, i);
      var x, left := links[i], S.Left(links[..i]);
      assert Completes(links, i);
      assert x.Sane();
      P.StaleHarmless(x.job, P.Past(x.frames, left), x.run);
    }
    assert Deliveries(links) == B.Batches(bursts);
  }
}
