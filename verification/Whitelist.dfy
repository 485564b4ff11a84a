/** Which characters of an accepted record are written: the listed ones, as they come. */
module Whitelist {
  import opened Bytes
  import opened FrameMachine
  import opened ReceiverSafety
  import opened Framing
  import opened Streams
  import opened Provenance
  import opened Sequences

  /** Digits, both alphabets, and a few more, one by one. */
  predicate Listed(ch: byte) {
    ch as char in {
      '-', '.', '/',
      '0', '1', '2', '3', '4', '5', '6', '7', '8', '9',
      'A', 'B', 'C', 'D', 'E', 'F', 'G', 'H', 'I', 'J', 'K', 'L', 'M',
      'N', 'O', 'P', 'Q', 'R', 'S', 'T', 'U', 'V', 'W', 'X', 'Y', 'Z',
      'a', 'b', 'c', 'd', 'e', 'f', 'g', 'h', 'i', 'j', 'k', 'l', 'm',
      'n', 'o', 'p', 'q', 'r', 's', 't', 'u', 'v', 'w', 'x', 'y', 'z',
      '{', '|', '}', '\t', '\n'}
  }

  predicate AllListed(s: seq<byte>) {
    forall i :: 0 <= i < |s| ==> Listed(s[i])
  }

  lemma ListedIff(ch: byte)
    ensures Listed(ch) <==> Printable(ch)
  {
    var c := ch as char;
    assert c as int == ch as int;
  }

  // ---------------------------------------------------------------- what the filter does

  /** A record of listed characters is written as it is. */
  lemma {:induction false} ListedIsKept(s: seq<byte>)
    requires AllListed(s)
    ensures Filter(s) == s
  {
    hide Listed, Printable;
    if s != [] {
      var n := |s| - 1;
      ListedIff(s[n]);
      ListedIsKept(s[..n]);
      assert s == s[..n] + [s[n]];
    }
  }

  lemma OneMore(s: seq<byte>, x: byte, ch: byte)
    ensures multiset(s + [x])[ch] == multiset(s)[ch] + if x == ch then 1 else 0
  {
  }

  lemma FilterNext(s: seq<byte>, x: byte)
    ensures Filter(s + [x]) == if Listed(x) then Filter(s) + [x] else Filter(s)
  {
    hide Listed, Printable;
    ListedIff(x);
    assert (s + [x])[..|s|] == s;
    NothingAdded(Filter(s));
  }

  /** Of any record, each listed character is written as often as it occurs, and no other ever. */
  lemma {:induction false} ListedIsCounted(s: seq<byte>, ch: byte)
    ensures multiset(Filter(s))[ch] == if Listed(ch) then multiset(s)[ch] else 0
  {
    hide Listed;
    if s != [] {
      var before, x := s[..|s| - 1], s[|s| - 1];
      assert s == before + [x];
      ListedIsCounted(before, ch);
      FilterNext(before, x);
      OneMore(before, x, ch);
      OneMore(Filter(before), x, ch);
      hide Filter;
    }
  }

  /** In the order in which they came. */
  lemma {:induction false} ListedIsInOrder(s: seq<byte>)
    ensures Within(Filter(s), s)
  {
    hide Printable;
    if s != [] {
      var n := |s| - 1;
      ListedIsInOrder(s[..n]);
      assert s == s[..n] + [s[n]];
      WithinTake(Filter(s[..n]), s[..n], s[n]);
      WithinSkip(Filter(s[..n]), s[..n], s[n]);
      assert Filter(s[..n]) + [] == Filter(s[..n]);
    }
  }

  lemma ListedParts(a: seq<byte>, b: seq<byte>)
    ensures AllListed(a + b) <==> AllListed(a) && AllListed(b)
  {
    hide Listed;
    assert forall i :: 0 <= i < |a| ==> (a + b)[i] == a[i];
    assert forall i :: 0 <= i < |b| ==> (a + b)[|a| + i] == b[i];
  }

  /** Round trip of records: correctly encoded frames of listed characters, without end marks, arrive letter for
      letter: what has been written and what is still pending, put together, is what was before and then exactly
      the payloads, each answered '*'. */
  lemma RecordsArrive(s: State, xs: seq<Sending>)
    requires Between(s) && !s.ended && AllSendable(xs) && !AnyEnd(xs) && Fits(|s.pending|, s.newline, false, xs)
    requires forall i :: 0 <= i < |xs| ==> Encoded(xs[i]) && xs[i].heard
    requires AllListed(s.pending + Payloads(xs))
    ensures var t := Run(s, Arrivals(xs));
      && Between(t)
      && t.file + t.pending == s.file + (s.pending + Payloads(xs))
      && t.tx == s.tx + seq(|xs|, _ => 0x2A)
  {
    hide Run, Arrivals, Fits, AllSendable, Encoded, Filter, AnyEnd, Booked, Met, Ends, AllListed, GoodData, Between;
    hide Payloads, GoodPayloads, Frames, Answers;
    var b := Ledger([], s.pending);
    var c := Booked(b, s.newline, false, xs);
    RoundTrip(s, xs);
    EncodedAreGood(xs);
    AllAreMet(xs);
    StreamDelivered(s, xs);
    BookedConserves(b, s.newline, false, xs);
    NothingAdded(s.pending);
    ListedParts(c.filed, c.pending);
    ListedIsKept(c.filed);
    Reassociate(s.file, c.filed, c.pending);
  }
}
