/** Where a read ends and where a batch ends: no record is split between two sessions. */
module Records {
  import opened Bytes
  import opened Packets
  import opened Batching
  import opened Sequences

  /** A line end somewhere in a part of the input. */
  predicate EndsLine(s: seq<byte>) {
    s != [] && s[|s| - 1] == 10
  }

  /** Every line of at most 199 characters, its end included: in the first 199 characters from any place there is a
      line end, unless the input is over by then. */
  predicate ShortLines(s: seq<byte>) {
    forall i: nat :: i + 199 < |s| ==> LineEndFrom(s, i)
  }

  predicate LineEndFrom(s: seq<byte>, i: nat) {
    exists j :: i <= j < i + 199 && j < |s| && s[j] == 10
  }

  // ---------------------------------------------------------------- where a read ends

  lemma {:induction false} LineLengthIs(s: seq<byte>, limit: nat)
    ensures var n := LineLength(s, limit);
      && (forall i :: 0 <= i < n - 1 ==> s[i] != 10)
      && (n < |s| && n < limit ==> n > 0 && s[n - 1] == 10)
    decreases |s|
  {
    if s != [] && limit > 0 && s[0] != 10 {
      LineLengthIs(s[1..], limit - 1);
      assert forall i :: 1 <= i < |s| ==> s[i] == s[1..][i - 1];
    }
  }

  /** One read takes exactly the input through its first line end, or 199 characters of it, or all there is. */
  lemma LineIs(s: seq<byte>, n: nat)
    requires n <= |s|
    ensures Line(s) == s[..n] <==>
      && n <= 199
      && (forall i :: 0 <= i < n - 1 ==> s[i] != 10)
      && (n == |s| || n == 199 || (n > 0 && s[n - 1] == 10))
  {
    LineLengthIs(s, 199);
    var m := LineLength(s, 199);
    assert Line(s) == s[..m];
    assert |s[..n]| == n && |s[..m]| == m;
  }

  // ---------------------------------------------------------------- where a batch ends

  lemma ShortRest(s: seq<byte>, n: nat)
    requires ShortLines(s) && n <= |s|
    ensures ShortLines(s[n..])
  {
    var t := s[n..];
    forall i: nat | i + 199 < |t|
      ensures LineEndFrom(t, i)
    {
      assert LineEndFrom(s, i + n);
      var j :| i + n <= j < i + n + 199 && j < |s| && s[j] == 10;
      assert t[j - n] == 10;
    }
  }

  /** A read that leaves something behind has taken a whole line. */
  lemma WholeLine(s: seq<byte>)
    requires ShortLines(s) && |Line(s)| < |s|
    ensures EndsLine(Line(s))
  {
    var n := |Line(s)|;
    assert Line(s) == s[..n];
    LineIs(s, n);
    if n == 199 {
      assert LineEndFrom(s, 0);
    }
  }

  /** A filling that leaves something behind ends in a line end. */
  lemma {:induction false} FillEndsLine(content: seq<byte>, input: seq<byte>)
    requires ShortLines(input) && NulFree(input)
    ensures var f := Fill(content, input);
      ShortLines(f.rest) && NulFree(f.rest) && (f.rest != [] ==> EndsLine(f.content))
    decreases |input|
  {
    if input != [] {
      LineIsPrefix(input);
      var line := Line(input);
      NulFreeBoth(line, input[|line|..]);
      UpToNulWhole(line);
      ShortRest(input, |line|);
      NextLine(content, input);
      if |line| < |input| {
        WholeLine(input);
        assert EndsLine(content + line);
      }
      hide Fill, ShortLines, NulFree, Line, UpToNul, EndsLine;
      if |content + line| < SESSION_SIZE {
        FillEndsLine(content + line, input[|line|..]);
      }
    }
  }

  /** A filling, of any input, stops at the first line end at which it holds 10000 characters or more. */
  lemma {:induction false} FillStopsAtOnce(content: seq<byte>, input: seq<byte>)
    requires |content| < 10000
    ensures var f := Fill(content, input);
      forall k :: 9999 <= k < |f.content| - 1 ==> f.content[k] != 10
    decreases |input|
  {
    if input != [] {
      LineIsPrefix(input);
      var line := Line(input);
      LineIs(input, |line|);
      NextLine(content, input);
      hide Fill, Line;
      if |content + UpToNul(line)| < 10000 {
        FillStopsAtOnce(content + UpToNul(line), input[|line|..]);
      }
    }
  }

  lemma RestEndsLine(read: seq<byte>, rest: seq<byte>)
    requires EndsLine(read + rest)
    ensures if rest == [] then EndsLine(read) else EndsLine(rest)
  {
    NothingAdded(read);
  }

  lemma FirstBatch(burst: seq<byte>)
    ensures var f := Fill([], burst);
      var first := if f.content == [] then [] else [f.content];
      && Cut(burst) == first + (if f.rest == [] then [] else Cut(f.rest))
      && (f.rest != [] ==> |f.rest| < |burst| && f.content != [])
      && (burst != [] ==> |f.rest| < |burst|)
  {
    FillBounds([], burst);
    NothingIsCut();
    hide Fill;
  }

  lemma NothingIsCut()
    ensures Cut([]) == []
  {
  }

  /** All batches end in a line end, the last one perhaps aside. */
  predicate EndLines(batches: seq<seq<byte>>, last: bool) {
    forall i :: 0 <= i < |batches| && (last || i < |batches| - 1) ==> EndsLine(batches[i])
  }

  lemma OneMoreBatch(x: seq<byte>, rest: seq<seq<byte>>, last: bool)
    requires EndsLine(x) && EndLines(rest, last)
    ensures EndLines([x] + rest, last)
  {
    hide EndsLine;
  }

  lemma LastBatch(x: seq<byte>, last: bool)
    requires last ==> x == [] || EndsLine(x)
    ensures EndLines((if x == [] then [] else [x]) + [], last)
  {
    hide EndsLine;
  }

  /** Of an input free of NULs with lines of at most 199 characters, every batch of a burst but the last ends in a
      line end, and so does the last if the burst does: no record is split between two sessions. */
  lemma {:induction false} BatchesEndLines(burst: seq<byte>)
    requires ShortLines(burst) && NulFree(burst)
    ensures EndLines(Cut(burst), EndsLine(burst))
    decreases |burst|
  {
    var f, read := Fill([], burst), Consumed([], burst);
    FirstBatch(burst);
    FillEndsLine([], burst);
    FillConserves([], burst);
    NulFreeBoth(read, f.rest);
    NothingAdded(read);
    if EndsLine(burst) {
      RestEndsLine(read, f.rest);
    }
    hide Fill, Cut, Consumed, ShortLines, NulFree, EndsLine, EndLines;
    if f.rest == [] {
      LastBatch(f.content, EndsLine(burst));
    } else {
      BatchesEndLines(f.rest);
      if EndsLine(f.rest) && !EndsLine(burst) {
        SuffixEndsLine(read, f.rest);
      }
      OneMoreBatch(f.content, Cut(f.rest), EndsLine(burst));
    }
  }

  lemma SuffixEndsLine(read: seq<byte>, rest: seq<byte>)
    requires EndsLine(rest)
    ensures EndsLine(read + rest)
  {
  }
}
