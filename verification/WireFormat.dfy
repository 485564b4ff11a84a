/** The datagrams of a session and the replies it waits for, byte by byte and in plain numbers. */
module WireFormat {
  import opened Bytes
  import opened Packets
  import opened Exchange

  /** A little-endian 16-bit number. */
  function U16At(f: seq<byte>, at: nat): nat
    requires at + 2 <= |f|
  {
    f[at] as nat + 256 * f[at + 1] as nat
  }

  /** A little-endian 32-bit number. */
  function U32At(f: seq<byte>, at: nat): nat
    requires at + 4 <= |f|
  {
    f[at] as nat + 256 * f[at + 1] as nat + 65536 * f[at + 2] as nat + 16777216 * f[at + 3] as nat
  }

  /** The smallest number of frames of 500 bytes for `total` bytes. */
  predicate Covers(count: nat, total: nat) {
    500 * count >= total && (count > 0 ==> 500 * (count - 1) < total)
  }

  /** Handshake: type 3, session id, number of frames, file name. */
  predicate IsHandshake(job: Job, f: seq<byte>) {
    && |f| == 17 && f[0] == 3 && U32At(f, 1) == job.sessionId
    && Covers(U16At(f, 5), |job.data|) && f[7..17] == job.fileName
  }

  /** Frame `k`: type 5, session id, length, sequence number, and the bytes of the batch from 500 `k` on. */
  predicate IsFrame(job: Job, k: nat, f: seq<byte>)
    requires 500 * k < |job.data|
  {
    var end := if 500 * (k + 1) < |job.data| then 500 * (k + 1) else |job.data|;
    && |f| == 11 + (end - 500 * k) && f[0] == 5 && U32At(f, 1) == job.sessionId
    && U32At(f, 5) == end - 500 * k && U16At(f, 9) == k && f[11..] == job.data[500 * k..end]
  }

  /** Finish: type 7, session id, port. */
  predicate IsFinish(job: Job, f: seq<byte>) {
    |f| == 7 && f[0] == 7 && U32At(f, 1) == job.sessionId && U16At(f, 5) == job.port
  }

  /** Packet `n` of the session, by its bytes. */
  predicate IsPacket(job: Job, n: nat, f: seq<byte>) {
    if n == 0 then IsHandshake(job, f)
    else if 500 * (n - 1) < |job.data| then IsFrame(job, n - 1, f)
    else 500 * (n - 2) < |job.data| && IsFinish(job, f)
  }

  lemma FieldsAreLittleEndian(f: seq<byte>, at: nat)
    ensures at + 2 <= |f| ==> U16At(f, at) == Get16(f, at)
    ensures at + 4 <= |f| ==> U32At(f, at) == Get32(f, at)
  {
  }

  lemma CountCovers(total: nat, count: nat)
    ensures Covers(count, total) <==> count == PacketCount(total)
  {
    CountBounds(total);
  }

  /** Every packet of the script has every field where the struct puts it, for every job. */
  lemma ScriptByBytes(job: Job, n: nat)
    requires Fits(job) && n <= Count(job) + 1
    ensures IsPacket(job, n, ScriptPacket(job, n))
  {
    var f := ScriptPacket(job, n);
    CountCovers(|job.data|, Count(job));
    CountBounds(|job.data|);
    hide Encode, PacketCount, Get16, Get32, Le16, Le32, U16At, U32At;
    FieldsAreLittleEndian(f, 1);
    FieldsAreLittleEndian(f, 5);
    FieldsAreLittleEndian(f, 9);
    if n == 0 {
      LayoutRoundTrip(Handshake(TYPE_HANDSHAKE, job.sessionId, Count(job), job.fileName));
    } else if n <= Count(job) {
      LayoutRoundTrip(DataPacket(job, n - 1));
    } else {
      LayoutRoundTrip(Finish(TYPE_FINISH, job.sessionId, job.port));
    }
  }

  /** The reply that packet `n` waits for: type 4, or type 6 asking for frame `n`, or type 8. */
  lemma ReplyByBytes(count: nat, n: nat, p: Datagram)
    ensures Answers(count, n, p) <==>
      if n == 0 then p[0] == 4 else if n <= count then p[0] == 6 && U16At(p, 5) == n else p[0] == 8
  {
    FieldsAreLittleEndian(p, 5);
  }

  /** What a session has sent, packet by packet. */
  predicate AreSessionPackets(job: Job, sent: seq<seq<byte>>) {
    forall n :: 0 <= n < |sent| ==> IsPacket(job, n, sent[n])
  }

  lemma ScriptIsByBytes(job: Job, n: nat)
    requires Fits(job) && n <= Count(job) + 2
    ensures AreSessionPackets(job, Script(job, n))
  {
    forall i | 0 <= i < n
      ensures IsPacket(job, i, Script(job, n)[i])
    {
      ScriptByBytes(job, i);
    }
  }
}
