/** Reading records from standard input into batches. */
module Batching {
  import opened Bytes
  import opened Packets
  import opened Exchange
  import opened Sequences

  const CAPACITY: nat := SESSION_SIZE + MAX_RECORD_SIZE
  const LINE_END: byte := 10

  // ---------------------------------------------------------------- what fgets and strlen give

  /** The length of what one `fgets` takes: through the first line end, at most `limit` characters. */
  function LineLength(s: seq<byte>, limit: nat): (n: nat)
    ensures n <= |s| && n <= limit
    ensures s != [] && limit > 0 ==> n > 0
  {
    if s == [] || limit == 0 then 0 else if s[0] == LINE_END then 1 else 1 + LineLength(s[1..], limit - 1)
  }

  function Line(s: seq<byte>): seq<byte> {
    s[..LineLength(s, MAX_RECORD_SIZE - 1)]
  }

  predicate NulFree(s: seq<byte>) {
    forall i :: 0 <= i < |s| ==> s[i] != 0
  }

  /** What `strlen` sees of a line. */
  function UpToNul(s: seq<byte>): (t: seq<byte>)
    ensures t <= s && NulFree(t)
    ensures NulFree(s) ==> t == s
    ensures |t| < |s| ==> s[|t|] == 0
  {
    if s == [] || s[0] == 0 then [] else [s[0]] + UpToNul(s[1..])
  }

  // ---------------------------------------------------------------- one filling of the buffer

  /** A filling: what the buffer then holds, and what is left of the input up to its next end of file. */
  datatype Filling = Filling(content: seq<byte>, rest: seq<byte>)

  function Fill(content: seq<byte>, input: seq<byte>): (f: Filling)
    ensures |f.rest| <= |input|
    decreases |input|
  {
    if input == [] then Filling(content, [])
    else
      var line := Line(input);
      var more := content + UpToNul(line);
      if |more| >= SESSION_SIZE then Filling(more, input[|line|..]) else Fill(more, input[|line|..])
  }

  /** Every filling entered below the session size stays within the buffer, and stops below it only
      at an end of file. */
  lemma {:induction false} FillBounds(content: seq<byte>, input: seq<byte>)
    requires |content| < SESSION_SIZE
    ensures var f := Fill(content, input);
      && |f.content| <= 10198
      && |f.rest| <= |input|
      && (input != [] ==> |f.rest| < |input|)
      && (|f.content| < 10000 ==> f.rest == [])
      && PacketCount(|f.content|) <= 21
    decreases |input|
  {
    if input != [] {
      var line := Line(input);
      var more := content + UpToNul(line);
      if |more| < SESSION_SIZE {
        FillBounds(more, input[|line|..]);
      }
    }
  }

  /** What one filling takes from its input. */
  function Consumed(content: seq<byte>, input: seq<byte>): seq<byte> {
    input[..|input| - |Fill(content, input).rest|]
  }

  /** What one line does to a filling. */
  lemma NextLine(content: seq<byte>, input: seq<byte>)
    requires input != []
    ensures var line := Line(input);
      var more, tail := content + UpToNul(line), input[|line|..];
      && |tail| < |input|
      && if |more| >= SESSION_SIZE then Fill(content, input) == Filling(more, tail) && Consumed(content, input) == line
         else Fill(content, input) == Fill(more, tail) && Consumed(content, input) == line + Consumed(more, tail)
  {
    hide UpToNul;
    LineIsPrefix(input);
  }

  /** Nothing is lost or repeated between the buffer and the input exactly when no NUL is read: a NUL cuts
      the rest of its line. */
  lemma {:induction false} FillConserves(content: seq<byte>, input: seq<byte>)
    ensures var f, read := Fill(content, input), Consumed(content, input);
      && input == read + f.rest
      && (f.content == content + read <==> NulFree(read))
      && |f.content| <= |content| + |read|
      && (|f.content| == |content| + |read| <==> NulFree(read))
    decreases |input|
  {
    NothingRead();
    NothingAdded(content);
    hide NulFree, UpToNul, Line;
    if input != [] {
      LineIsPrefix(input);
      var line := Line(input);
      var more, tail := content + UpToNul(line), input[|line|..];
      NextLine(content, input);
      hide Fill, Consumed;
      if |more| < SESSION_SIZE {
        FillConserves(more, tail);
        Reassociate(line, Consumed(more, tail), Fill(more, tail).rest);
        CutLine(content, line, Consumed(more, tail), Fill(more, tail).content);
      } else {
        NothingAdded(line);
        NothingAdded(more);
        CutLine(content, line, [], more);
      }
    }
  }

  lemma LineIsPrefix(input: seq<byte>)
    ensures |Line(input)| <= |input| && input == Line(input) + input[|Line(input)|..]
    ensures input != [] ==> Line(input) != []
  {
  }

  lemma NothingRead()
    ensures NulFree([])
  {
  }

  lemma CutLine(content: seq<byte>, line: seq<byte>, later: seq<byte>, all: seq<byte>)
    requires all == content + UpToNul(line) + later <==> NulFree(later)
    requires |all| <= |content + UpToNul(line)| + |later|
    requires |all| == |content + UpToNul(line)| + |later| <==> NulFree(later)
    ensures all == content + (line + later) <==> NulFree(line + later)
    ensures |all| <= |content| + |line + later|
    ensures |all| == |content| + |line + later| <==> NulFree(line + later)
  {
    NulFreeBoth(line, later);
    UpToNulWhole(line);
    hide NulFree, UpToNul;
    assert content + line + later == content + (line + later);
  }

  lemma NulFreeBoth(a: seq<byte>, b: seq<byte>)
    ensures NulFree(a + b) <==> NulFree(a) && NulFree(b)
  {
    assert forall i :: 0 <= i < |a| ==> (a + b)[i] == a[i];
    assert forall i :: 0 <= i < |b| ==> (a + b)[|a| + i] == b[i];
  }

  lemma UpToNulWhole(s: seq<byte>)
    ensures |UpToNul(s)| <= |s|
    ensures UpToNul(s) == s <==> NulFree(s)
    ensures |UpToNul(s)| == |s| ==> UpToNul(s) == s
  {
  }

  // ---------------------------------------------------------------- all batches

  function Flatten(parts: seq<seq<byte>>): seq<byte> {
    if parts == [] then [] else parts[0] + Flatten(parts[1..])
  }

  /** The batches made of what is read up to one end of file. */
  function Cut(burst: seq<byte>): seq<seq<byte>>
    decreases |burst|
  {
    FillBounds([], burst);
    var f := Fill([], burst);
    (if f.content == [] then [] else [f.content]) + (if |f.content| < SESSION_SIZE then [] else Cut(f.rest))
  }

  /** The batches of an input that meets an end of file after each of `bursts`. */
  function Batches(bursts: seq<seq<byte>>): seq<seq<byte>> {
    if bursts == [] then [] else Cut(bursts[0]) + Batches(bursts[1..])
  }

  predicate Sendable(batch: seq<byte>) {
    0 < |batch| <= 10198 && PacketCount(|batch|) <= 21
  }

  lemma FlattenFirst(x: seq<byte>, rest: seq<seq<byte>>)
    ensures Flatten([x] + rest) == x + Flatten(rest)
  {
    TailOf([x], rest);
    NothingAdded(rest);
    assert [x][1..] == [];
  }

  lemma {:induction false} FlattenAppend(a: seq<seq<byte>>, b: seq<seq<byte>>)
    ensures Flatten(a + b) == Flatten(a) + Flatten(b)
  {
    if a == [] {
      NothingAdded(b);
      NothingAdded(Flatten(b));
    } else {
      var x, rest := a[0], a[1..];
      FlattenAppend(rest, b);
      Regroup([], x, rest + b);
      assert a == [x] + rest;
      Reassociate([x], rest, b);
      Reassociate(x, Flatten(rest), Flatten(b));
      FlattenFirst(x, rest + b);
    }
  }

  lemma FlattenOne(x: seq<byte>)
    ensures Flatten(if x == [] then [] else [x]) == x
  {
    assert [x][1..] == [];
  }

  /** A burst is its first filling, if that holds anything, and then whatever a full buffer leaves. */
  lemma CutIs(burst: seq<byte>)
    ensures var f := Fill([], burst);
      var first := if f.content == [] then [] else [f.content];
      && Cut(burst) == first + (if |f.content| < SESSION_SIZE then [] else Cut(f.rest))
      && Flatten(first) == f.content
      && (|f.content| >= SESSION_SIZE ==> |f.rest| < |burst|)
      && (|f.content| < SESSION_SIZE ==> f.rest == [])
      && (forall i :: 0 <= i < |first| ==> Sendable(first[i]))
  {
    FillBounds([], burst);
    FlattenOne(Fill([], burst).content);
    hide Fill, PacketCount;
  }

  lemma {:induction false} CutIsSendable(burst: seq<byte>)
    ensures forall i :: 0 <= i < |Cut(burst)| ==> Sendable(Cut(burst)[i])
    decreases |burst|
  {
    var f := Fill([], burst);
    CutIs(burst);
    hide Fill, Cut, Sendable, Flatten;
    if |f.content| >= SESSION_SIZE {
      CutIsSendable(f.rest);
    }
  }

  /** The batches of one burst are sendable, and put together they are the burst exactly when it holds no NUL. */
  lemma {:induction false} CutConserves(burst: seq<byte>)
    ensures forall i :: 0 <= i < |Cut(burst)| ==> Sendable(Cut(burst)[i])
    ensures Flatten(Cut(burst)) == burst <==> NulFree(burst)
    ensures |Flatten(Cut(burst))| <= |burst|
    ensures |Flatten(Cut(burst))| == |burst| <==> NulFree(burst)
    decreases |burst|
  {
    CutIsSendable(burst);
    var f, read := Fill([], burst), Consumed([], burst);
    var first := if f.content == [] then [] else [f.content];
    CutIs(burst);
    FillConserves([], burst);
    NulFreeBoth(read, f.rest);
    NothingRead();
    NothingAdded(first);
    NothingAdded(read);
    hide NulFree, Fill, Cut, Consumed, Flatten, Sendable;
    if |f.content| >= SESSION_SIZE {
      CutConserves(f.rest);
      FlattenAppend(first, Cut(f.rest));
      WholeIff(f.content, Flatten(Cut(f.rest)), read, f.rest);
    }
  }

  /** Two parts, each no longer than it should be, make up the whole exactly when each is what it should be. */
  lemma WholeIff(a: seq<byte>, b: seq<byte>, c: seq<byte>, d: seq<byte>)
    requires |a| <= |c| && (|a| == |c| <==> a == c) && |b| <= |d| && (|b| == |d| <==> b == d)
    ensures a + b == c + d <==> a == c && b == d
    ensures |a + b| == |c + d| <==> a == c && b == d
  {
    if a + b == c + d {
      assert |a + b| == |c + d|;
    }
  }

  /** Every input: the batches are the input, in order, exactly when it holds no NUL. */
  lemma {:induction false} BatchesConserve(bursts: seq<seq<byte>>)
    ensures forall i :: 0 <= i < |Batches(bursts)| ==> Sendable(Batches(bursts)[i])
    ensures Flatten(Batches(bursts)) == Flatten(bursts) <==> NulFree(Flatten(bursts))
    ensures |Flatten(Batches(bursts))| <= |Flatten(bursts)|
    ensures |Flatten(Batches(bursts))| == |Flatten(bursts)| <==> NulFree(Flatten(bursts))
  {
    hide NulFree, Cut;
    if bursts == [] {
      NothingRead();
    } else {
      CutConserves(bursts[0]);
      BatchesConserve(bursts[1..]);
      FlattenAppend(Cut(bursts[0]), Batches(bursts[1..]));
      NulFreeBoth(bursts[0], Flatten(bursts[1..]));
    }
  }

  // ---------------------------------------------------------------- the buffer itself

  class Buffer {
    const sessionData: array<byte>
    var numBytes: nat

    /** A NUL-terminated string of `numBytes` characters. */
    ghost predicate Valid()
      reads this, sessionData
    {
      && sessionData.Length == CAPACITY && numBytes < CAPACITY
      && sessionData[numBytes] == 0 && NulFree(sessionData[..numBytes])
    }

    ghost function Contents(): seq<byte>
      requires Valid()
      reads this, sessionData
    {
      sessionData[..numBytes]
    }

    constructor ()
      ensures Valid() && fresh(sessionData) && Contents() == []
    {
      sessionData := new byte[SESSION_SIZE + MAX_RECORD_SIZE](_ => 0);
      numBytes := 0;
    }

    /** `fgets` behind the current contents; nothing is written at an end of file. */
    method Fgets(input: seq<byte>) returns (success: bool, rest: seq<byte>)
      requires Valid() && numBytes < SESSION_SIZE
      modifies sessionData
      ensures success == (input != [])
      ensures rest == input[|Line(input)|..]
      ensures sessionData[..numBytes] == old(sessionData[..numBytes])
      ensures success ==> sessionData[numBytes..numBytes + |Line(input)| + 1] == Line(input) + [0]
      ensures !success ==> sessionData[..] == old(sessionData[..])
    {
      var line := Line(input);
      rest := input[|line|..];
      success := input != [];
      if success {
        var i := 0;
        while i < |line|
          invariant i <= |line|
          invariant sessionData[..numBytes] == old(sessionData[..numBytes])
          invariant sessionData[numBytes..numBytes + i] == line[..i]
        {
          sessionData[numBytes + i] := line[i];
          i := i + 1;
        }
        sessionData[numBytes + |line|] := 0;
      }
    }

    /** `strlen`, for a buffer with a NUL at or before `bound`. */
    method Strlen(ghost bound: nat) returns (n: nat)
      requires bound < sessionData.Length && sessionData[bound] == 0
      ensures n <= bound && sessionData[n] == 0 && forall i :: 0 <= i < n ==> sessionData[i] != 0
    {
      n := 0;
      while sessionData[n] != 0
        invariant n <= bound && forall i :: 0 <= i < n ==> sessionData[i] != 0
        decreases bound - n
      {
        n := n + 1;
      }
    }

    /** One `fgets` and the `strlen` after it. */
    method ReadLine(input: seq<byte>) returns (success: bool, rest: seq<byte>)
      requires Valid() && numBytes < SESSION_SIZE
      modifies this, sessionData
      ensures Valid()
      ensures success == (input != [])
      ensures |Line(input)| <= |input| && rest == input[|Line(input)|..]
      ensures Contents() == if success then old(Contents()) + UpToNul(Line(input)) else old(Contents())
    {
      ghost var before := Contents();
      ghost var line := if input == [] then [] else Line(input);
      LineIsPrefix(input);
      assert sessionData[numBytes..numBytes + 1] == [0];
      hide UpToNul, LineLength, NulFree, Line;
      success, rest := Fgets(input);
      ghost var n := numBytes;
      assert sessionData[..][..n] == before && sessionData[..][n..n + |line| + 1] == line + [0];
      numBytes := Strlen(numBytes + |line|);
      EndsAtNul(sessionData[..], before, line, n, numBytes);
    }

    /** The inner read loop: until the input is at its end or the session is full. */
    method ReadBatch(input: seq<byte>) returns (rest: seq<byte>)
      requires Valid() && numBytes < SESSION_SIZE
      modifies this, sessionData
      ensures Valid()
      ensures Filling(Contents(), rest) == Fill(old(Contents()), input)
    {
      rest := input;
      hide UpToNul, LineLength, NulFree;
      while true
        invariant Valid() && numBytes < SESSION_SIZE
        invariant Fill(Contents(), rest) == Fill(old(Contents()), input)
        decreases |rest|
      {
        LineIsPrefix(rest);
        var success: bool;
        success, rest := ReadLine(rest);
        if !success {
          break;
        }
        if numBytes >= SESSION_SIZE {
          break;
        }
      }
    }

    /** `bzero` after a batch. */
    method Reset()
      requires Valid()
      modifies this, sessionData
      ensures Valid() && Contents() == []
    {
      var i := 0;
      while i < sessionData.Length
        invariant i <= sessionData.Length
        invariant forall j :: 0 <= j < i ==> sessionData[j] == 0
      {
        sessionData[i] := 0;
        i := i + 1;
      }
      numBytes := 0;
    }
  }

  /** The string that ends at the first NUL is `before` and the line up to its own first NUL. */
  lemma EndsAtNul(s: seq<byte>, before: seq<byte>, line: seq<byte>, n: nat, k: nat)
    requires n == |before| && n + |line| < |s| && NulFree(before)
    requires s[..n] == before && s[n..n + |line| + 1] == line + [0]
    requires k < |s| && s[k] == 0 && forall i :: 0 <= i < k ==> s[i] != 0
    ensures s[..k] == before + UpToNul(line) && NulFree(s[..k])
  {
    FirstNul(s, before, line, n);
    hide UpToNul;
    assert k == n + |UpToNul(line)|;
  }

  /** Where the first NUL is after a line has been put behind `before`. */
  lemma FirstNul(s: seq<byte>, before: seq<byte>, line: seq<byte>, n: nat)
    requires n == |before| && n + |line| < |s| && NulFree(before)
    requires s[..n] == before && s[n..n + |line| + 1] == line + [0]
    ensures var m := n + |UpToNul(line)|;
      && m < |s| && s[..m] == before + UpToNul(line) && s[m] == 0
      && (forall i :: 0 <= i < m ==> s[i] != 0)
  {
    var cut := UpToNul(line);
    var m := n + |cut|;
    assert s[n..n + |line| + 1][|cut|] == s[m];
    assert forall i :: 0 <= i < |cut| ==> s[n + i] == s[n..n + |line| + 1][i] == cut[i];
    assert s[..m] == before + cut;
    assert forall i :: 0 <= i < m ==> s[i] == s[..m][i];
    NulFreeBoth(before, cut);
  }
}
