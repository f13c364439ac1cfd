/**
 * The bounded replay of a terminal: chunks are appended at the end and dropped
 * from the front until they fit, and what is left is the tail of the output.
 */
module TerminalReplay {

  const MAX_REPLAY := 32 * 1024

  datatype Buffer = Buffer(replay: seq<string>, bytes: int)

  function Sum(chunks: seq<string>): nat {
    if chunks == [] then 0 else |chunks[0]| + Sum(chunks[1..])
  }

  lemma {:induction false} SumConcat(a: seq<string>, b: seq<string>)
    ensures Sum(a + b) == Sum(a) + Sum(b)
  {
    if a == [] {
      assert a + b == b;
    } else {
      SumConcat(a[1..], b);
      assert (a + b)[1..] == a[1..] + b;
    }
  }

  /** The length kept beside a replay is the length of the replay. */
  predicate Honest(b: Buffer) {
    b.bytes == Sum(b.replay)
  }

  /** Within 32 KiB, unless a single chunk is longer on its own. */
  predicate Bounded(b: Buffer) {
    b.bytes <= MAX_REPLAY || |b.replay| <= 1
  }

  /**
   * What should be replayed of an output: its longest suffix of whole chunks that
   * fits, or its last chunk when that one alone does not.
   */
  function Tail(output: seq<string>): seq<string> {
    if Sum(output) <= MAX_REPLAY || |output| <= 1 then output else Tail(output[1..])
  }

  predicate SuffixOf(a: seq<string>, b: seq<string>) {
    |a| <= |b| && a == b[|b| - |a|..]
  }

  lemma {:induction false} TailIsASuffix(output: seq<string>)
    ensures SuffixOf(Tail(output), output)
    ensures output != [] ==> Tail(output) != []
    ensures Sum(Tail(output)) <= MAX_REPLAY || |Tail(output)| == 1
  {
    if !(Sum(output) <= MAX_REPLAY || |output| <= 1) {
      TailIsASuffix(output[1..]);
    }
  }

  /** No longer suffix fits. */
  lemma {:induction false} TailIsLongest(output: seq<string>, k: nat)
    requires k < |output| - |Tail(output)|
    ensures Sum(output[k..]) > MAX_REPLAY
  {
    if k == 0 {
      assert output[0..] == output;
    } else {
      TailIsLongest(output[1..], k - 1);
      assert output[1..][k - 1..] == output[k..];
    }
  }

  /** `appendReplay`'s loop: drop from the front while too long. */
  function Trim(b: Buffer): Buffer
    decreases |b.replay|
  {
    if b.bytes > MAX_REPLAY && |b.replay| > 1
    then Trim(Buffer(b.replay[1..], b.bytes - |b.replay[0]|)) else b
  }

  function Append(b: Buffer, chunk: string): Buffer {
    Trim(Buffer(b.replay + [chunk], b.bytes + |chunk|))
  }

  function AppendAll(b: Buffer, chunks: seq<string>): Buffer
    decreases |chunks|
  {
    if chunks == [] then b else AppendAll(Append(b, chunks[0]), chunks[1..])
  }

  lemma {:induction false} TrimIsTail(b: Buffer)
    requires Honest(b)
    ensures Trim(b) == Buffer(Tail(b.replay), Sum(Tail(b.replay)))
    decreases |b.replay|
  {
    if b.bytes > MAX_REPLAY && |b.replay| > 1 {
      TrimIsTail(Buffer(b.replay[1..], b.bytes - |b.replay[0]|));
    }
  }

  /** Taking the tail early loses nothing the tail of the whole would keep. */
  lemma {:induction false} TailOfTail(output: seq<string>, chunk: string)
    ensures Tail(Tail(output) + [chunk]) == Tail(output + [chunk])
  {
    if !(Sum(output) <= MAX_REPLAY || |output| <= 1) {
      TailOfTail(output[1..], chunk);
      SumConcat(output, [chunk]);
      assert (output + [chunk])[1..] == output[1..] + [chunk];
    }
  }

  /** Appending to the tail of an output gives the tail of the longer output. */
  lemma AppendIsTail(b: Buffer, output: seq<string>, chunk: string)
    requires b == Buffer(Tail(output), Sum(Tail(output)))
    ensures Append(b, chunk) == Buffer(Tail(output + [chunk]), Sum(Tail(output + [chunk])))
  {
    SumConcat(b.replay, [chunk]);
    assert Sum([chunk]) == |chunk| by { assert [chunk][1..] == []; }
    TrimIsTail(Buffer(b.replay + [chunk], b.bytes + |chunk|));
    TailOfTail(output, chunk);
  }

  lemma AppendStaysBounded(b: Buffer, chunk: string)
    requires Honest(b)
    ensures Honest(Append(b, chunk)) && Bounded(Append(b, chunk))
    ensures SuffixOf(Append(b, chunk).replay, b.replay + [chunk])
  {
    SumConcat(b.replay, [chunk]);
    assert Sum([chunk]) == |chunk| by { assert [chunk][1..] == []; }
    TrimIsTail(Buffer(b.replay + [chunk], b.bytes + |chunk|));
    TailIsASuffix(b.replay + [chunk]);
  }

  // ------------------------------------------------------------ subsequences

  /** The chunks of `a`, in order, among those of `b`. */
  predicate Subsequence(a: seq<string>, b: seq<string>) {
    if a == [] then true
    else if b == [] then false
    else if a[0] == b[0] && Subsequence(a[1..], b[1..]) then true
    else Subsequence(a, b[1..])
  }

  lemma {:induction false} SubsequenceSelf(a: seq<string>)
    ensures Subsequence(a, a)
  {
    if a != [] { SubsequenceSelf(a[1..]); }
  }

  /** Dropping from the front of a subsequence leaves one. */
  lemma {:induction false} SubsequenceDrop(a: seq<string>, b: seq<string>)
    requires a != [] && Subsequence(a, b)
    ensures Subsequence(a[1..], b)
    decreases |b|
  {
    if a[0] == b[0] && Subsequence(a[1..], b[1..]) {
      SubsequenceSkip(a[1..], b);
    } else {
      SubsequenceDrop(a, b[1..]);
      SubsequenceSkip(a[1..], b);
    }
  }

  lemma SubsequenceSkip(a: seq<string>, b: seq<string>)
    requires b != [] && Subsequence(a, b[1..])
    ensures Subsequence(a, b)
  {
  }

  lemma {:induction false} SubsequenceSuffix(a: seq<string>, suffix: seq<string>, b: seq<string>)
    requires Subsequence(a, b) && SuffixOf(suffix, a)
    ensures Subsequence(suffix, b)
    decreases |a|
  {
    if |suffix| < |a| {
      SubsequenceDrop(a, b);
      SubsequenceSuffix(a[1..], suffix, b);
    }
  }

  lemma {:induction false} SubsequenceSnoc(a: seq<string>, b: seq<string>, chunk: string)
    requires Subsequence(a, b)
    ensures Subsequence(a, b + [chunk]) && Subsequence(a + [chunk], b + [chunk])
    decreases |b|
  {
    if b == [] {
      assert a + [chunk] == b + [chunk] == [chunk];
      SubsequenceSelf([chunk]);
    } else {
      assert (b + [chunk])[1..] == b[1..] + [chunk];
      if a == [] {
        SubsequenceSnoc(a, b[1..], chunk);
        SubsequenceSkip(a + [chunk], b + [chunk]);
      } else if a[0] == b[0] && Subsequence(a[1..], b[1..]) {
        SubsequenceSnoc(a[1..], b[1..], chunk);
        assert (a + [chunk])[1..] == a[1..] + [chunk];
      } else {
        SubsequenceSnoc(a, b[1..], chunk);
        SubsequenceSkip(a, b + [chunk]);
        SubsequenceSkip(a + [chunk], b + [chunk]);
      }
    }
  }

  /** Appending one by one keeps a suffix of the whole, and the books. */
  lemma {:induction false} AppendAllSuffix(b: Buffer, chunks: seq<string>)
    requires Honest(b) && Bounded(b)
    ensures Honest(AppendAll(b, chunks)) && Bounded(AppendAll(b, chunks))
    ensures SuffixOf(AppendAll(b, chunks).replay, b.replay + chunks)
    decreases |chunks|
  {
    if chunks == [] {
      assert b.replay + chunks == b.replay;
    } else {
      AppendStaysBounded(b, chunks[0]);
      var next := Append(b, chunks[0]);
      AppendAllSuffix(next, chunks[1..]);
      assert b.replay + chunks == (b.replay + [chunks[0]]) + chunks[1..];
      assert SuffixOf(next.replay + chunks[1..], b.replay + chunks);
    }
  }

  /** The buffer as the source mutates it. */
  class ReplayBuffer {
    var replay: seq<string>
    var replayBytes: int

    constructor (start: Buffer)
      ensures View() == start
    {
      replay, replayBytes := start.replay, start.bytes;
    }

    function View(): Buffer
      reads this
    {
      Buffer(replay, replayBytes)
    }

    /** `appendReplay`. */
    method AppendReplay(chunk: string)
      modifies this
      ensures View() == Append(old(View()), chunk)
      ensures old(Honest(View())) ==> Honest(View()) && Bounded(View()) && |replay| > 0 && replay[|replay| - 1] == chunk
    {
      replay := replay + [chunk];
      replayBytes := replayBytes + |chunk|;
      while replayBytes > MAX_REPLAY && |replay| > 1
        invariant Trim(View()) == Append(old(View()), chunk)
        invariant |replay| > 0 && replay[|replay| - 1] == chunk
        decreases |replay|
      {
        var removed := replay[0];
        replay := replay[1..];
        replayBytes := replayBytes - |removed|;
      }
      if old(Honest(View())) { AppendStaysBounded(old(View()), chunk); }
    }
  }
}
