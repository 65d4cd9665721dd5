/**
 * The cursor handshake: the first `ESC [ 6 n` of a terminal's output is answered and kept back,
 * however the output is cut into reads.
 */
module Handshake {
  import opened Wrappers
  import opened Bytes
  import opened Lists
  import opened Search

  const QUERY: seq<Byte> := [0x1b, 0x5b, 0x36, 0x6e]
  /** A query that has not shown by then is taken for a program's own. */
  const WINDOW: nat := 4096

  /** `data` ends with the first `k` elements of the needle. */
  predicate EndsWithPart<T(==)>(data: seq<T>, needle: seq<T>, k: nat) {
    k <= |needle| && k <= |data| && data[|data| - k..] == needle[..k]
  }

  /** `partial_suffix`, below `len`: the longest beginning of the needle that `data` ends with. */
  function PartialBelow<T(==)>(data: seq<T>, needle: seq<T>, len: nat): (k: nat)
    requires 1 <= len <= |needle|
    ensures k < len && EndsWithPart(data, needle, k)
    ensures forall j :: k < j < len ==> !EndsWithPart(data, needle, j)
  {
    if len == 1 then 0 else if EndsWithPart(data, needle, len - 1) then len - 1 else PartialBelow(data, needle, len - 1)
  }

  /** How much of the needle, short of all of it, may have begun at the end of `data`: the most it can be. */
  function PartialSuffix<T(==)>(data: seq<T>, needle: seq<T>): (k: nat)
    requires needle != []
    ensures k < |needle| && EndsWithPart(data, needle, k)
    ensures forall j :: k < j < |needle| ==> !EndsWithPart(data, needle, j)
  {
    PartialBelow(data, needle, |needle|)
  }

  /** The input as it should reach the screen once the question in it was answered. */
  ghost predicate IsWithout<T>(out: seq<T>, input: seq<T>, needle: seq<T>) {
    exists p: nat :: FirstAt(input, needle, p) && out == input[..p] + input[p + |needle|..]
  }

  class CursorHandshake {
    var done: bool
    var seen: nat
    var carry: seq<Byte>
    /** All that came in, all that went out, and the answers sent. */
    ghost var input: seq<Byte>
    ghost var output: seq<Byte>
    ghost var replies: nat

    /**
     * Until it is done: what came in is what went out and what is held back, and what is held back
     * is the longest beginning of a question that all the input so far ends with.
     */
    ghost predicate Valid()
      reads this
    {
      if !done then
        && output + carry == input && seen == |input| < WINDOW && replies == 0
        && |carry| == PartialSuffix(input, QUERY) && !Has(input, QUERY)
      else
        && carry == []
        && (replies == 0 ==> output == input)
        && (replies != 0 ==> replies == 1 && IsWithout(output, input, QUERY))
    }

    constructor ()
      ensures Valid() && !done && input == [] && output == []
    {
      done, seen, carry := false, 0, [];
      input, output, replies := [], [], 0;
    }

    /** `filter`: the bytes to pass on, and whether to answer now. */
    method Filter(chunk: seq<Byte>) returns (out: seq<Byte>, reply: bool)
      requires Valid()
      modifies this
      ensures Valid()
      ensures input == old(input) + chunk && output == old(output) + out
      ensures replies == old(replies) + (if reply then 1 else 0)
      ensures old(done) ==> done && !reply && out == chunk
      ensures !old(done) ==> (reply <==> Has(input, QUERY)) && (done <==> Has(input, QUERY) || |input| >= WINDOW)
    {
      hide OccursAt, EndsWithPart, PartialSuffix, Has, IsWithout;
      ghost var before, sent, held := input, output, carry;
      input := input + chunk;
      if done {
        PassesOn(before, sent, chunk, QUERY);
        output := output + chunk;
        return chunk, false;
      }
      var data := carry + chunk;
      Assoc(sent, held, chunk);
      carry := [];
      var at := Find(data, QUERY, 0);
      QueryIsInData(before, sent, held, chunk, QUERY);
      if at.Some? {
        done := true;
        InBounds(data, QUERY, at.value);
        out := data[..at.value] + data[at.value + |QUERY|..];
        reply := true;
        CutOut(sent, data, QUERY, at.value);
        output, replies := output + out, replies + 1;
        return;
      }
      NoQuery(sent, data, QUERY);
      seen := seen + |chunk|;
      if seen >= WINDOW {
        done := true;
        output := output + data;
        return data, false;
      }
      var keep := PartialSuffix(data, QUERY);
      SuffixInBounds(data, QUERY, keep);
      carry := data[|data| - keep..];
      out := data[..|data| - keep];
      output := output + out;
      CutEnd(sent, data, keep);
      HeldIsLongest(before, sent, held, chunk, QUERY);
      reply := false;
    }
  }

  lemma Assoc<T>(a: seq<T>, b: seq<T>, c: seq<T>)
    ensures (a + b) + c == a + (b + c)
  {
  }

  lemma CutEnd<T>(sent: seq<T>, data: seq<T>, keep: nat)
    requires keep <= |data|
    ensures (sent + data[..|data| - keep]) + data[|data| - keep..] == sent + data
  {
  }

  lemma InBounds<T>(data: seq<T>, needle: seq<T>, p: nat)
    requires OccursAt(data, needle, p)
    ensures p + |needle| <= |data|
  {
  }

  lemma SuffixInBounds<T>(data: seq<T>, needle: seq<T>, k: nat)
    requires EndsWithPart(data, needle, k)
    ensures k <= |data|
  {
  }

  /** A question that ends in the new bytes began no earlier than what was held back. */
  lemma QueryIsInData<T>(before: seq<T>, sent: seq<T>, carry: seq<T>, chunk: seq<T>, needle: seq<T>)
    requires needle != [] && before == sent + carry && |carry| == PartialSuffix(before, needle) && !Has(before, needle)
    ensures forall p: nat :: p < |sent| ==> !OccursAt(sent + (carry + chunk), needle, p)
  {
    hide PartialSuffix;
    var input := sent + (carry + chunk);
    assert input == before + chunk;
    forall p: nat | p < |sent|
      ensures !OccursAt(input, needle, p)
    {
      if OccursAt(input, needle, p) { NotHeld(before, chunk, needle, p); }
    }
  }

  /** An occurrence that runs into the new bytes leaves a beginning of the needle at the old end. */
  lemma NotHeld<T>(before: seq<T>, chunk: seq<T>, needle: seq<T>, p: nat)
    requires OccursAt(before + chunk, needle, p) && p < |before|
    ensures OccursAt(before, needle, p) || (|before| - p < |needle| && EndsWithPart(before, needle, |before| - p))
  {
    var input := before + chunk;
    if p + |needle| <= |before| {
      assert before[p..p + |needle|] == input[p..p + |needle|];
    } else {
      var k := |before| - p;
      assert before[p..] == input[p..p + |needle|][..k];
    }
  }

  lemma CutOut<T>(sent: seq<T>, data: seq<T>, needle: seq<T>, at: nat)
    requires OccursAt(data, needle, at) && forall q: nat :: q < at ==> !OccursAt(data, needle, q)
    requires forall p: nat :: p < |sent| ==> !OccursAt(sent + data, needle, p)
    ensures Has(sent + data, needle) && IsWithout(sent + (data[..at] + data[at + |needle|..]), sent + data, needle)
  {
    var input, p := sent + data, |sent| + at;
    OccursInData(sent, data, needle, p);
    forall q: nat | q < p
      ensures !OccursAt(input, needle, q)
    {
      if q >= |sent| { OccursInData(sent, data, needle, q); }
    }
    assert FirstAt(input, needle, p);
    assert sent + (data[..at] + data[at + |needle|..]) == input[..p] + input[p + |needle|..];
  }

  lemma NoQuery<T>(sent: seq<T>, data: seq<T>, needle: seq<T>)
    requires forall q: nat :: !OccursAt(data, needle, q)
    requires forall p: nat :: p < |sent| ==> !OccursAt(sent + data, needle, p)
    ensures !Has(sent + data, needle)
  {
    forall p: nat
      ensures !OccursAt(sent + data, needle, p)
    {
      if p >= |sent| { OccursInData(sent, data, needle, p); }
    }
  }

  /** What is held back of the bytes at hand is the longest beginning all the input ends with. */
  lemma HeldIsLongest<T>(before: seq<T>, sent: seq<T>, carry: seq<T>, chunk: seq<T>, needle: seq<T>)
    requires needle != [] && before == sent + carry && |carry| == PartialSuffix(before, needle)
    ensures PartialSuffix(sent + (carry + chunk), needle) == PartialSuffix(carry + chunk, needle)
  {
    hide EndsWithPart, PartialBelow;
    var data, input := carry + chunk, sent + (carry + chunk);
    forall k: nat | k < |needle|
      ensures EndsWithPart(input, needle, k) == EndsWithPart(data, needle, k)
    {
      SameEnd(before, sent, carry, chunk, needle, k);
    }
  }

  lemma SameEnd<T>(before: seq<T>, sent: seq<T>, carry: seq<T>, chunk: seq<T>, needle: seq<T>, k: nat)
    requires before == sent + carry && k < |needle|
    requires forall j :: |carry| < j < |needle| ==> !EndsWithPart(before, needle, j)
    ensures EndsWithPart(sent + (carry + chunk), needle, k) == EndsWithPart(carry + chunk, needle, k)
  {
    var data, input := carry + chunk, sent + (carry + chunk);
    if k <= |data| {
      assert k <= |input| && input[|input| - k..] == data[|data| - k..];
    } else if EndsWithPart(input, needle, k) {
      var j := k - |chunk|;
      assert before[|before| - j..] == input[|input| - k..][..j] == needle[..k][..j] == needle[..j];
      assert EndsWithPart(before, needle, j);
    }
  }

  /** Past the handshake, output passes as it is. */
  lemma PassesOn<T>(input: seq<T>, output: seq<T>, chunk: seq<T>, needle: seq<T>)
    ensures IsWithout(output, input, needle) ==> IsWithout(output + chunk, input + chunk, needle)
  {
    if IsWithout(output, input, needle) {
      var p: nat :| FirstAt(input, needle, p) && output == input[..p] + input[p + |needle|..];
      var longer := input + chunk;
      forall q: nat | q <= p
        ensures OccursAt(longer, needle, q) == OccursAt(input, needle, q)
      {
        assert longer[q..q + |needle|] == input[q..q + |needle|];
      }
      assert FirstAt(longer, needle, p);
      assert output + chunk == longer[..p] + longer[p + |needle|..];
    }
  }

  // ---- Whole runs ----

  /** The first question ends in read `k`, and fewer than 4,096 bytes came in before that read. */
  ghost predicate CaughtIn(chunks: seq<seq<Byte>>, k: nat)
    requires k < |chunks|
  {
    |Joined(chunks[..k])| < WINDOW && !Has(Joined(chunks[..k]), QUERY) && Has(Joined(chunks[..k + 1]), QUERY)
  }

  ghost predicate Caught(chunks: seq<seq<Byte>>) {
    exists k :: 0 <= k < |chunks| && CaughtIn(chunks, k)
  }

  lemma {:induction false} JoinedPrefix(chunks: seq<seq<Byte>>, k: nat)
    requires k <= |chunks|
    ensures Joined(chunks[..k]) <= Joined(chunks)
    decreases |chunks| - k
  {
    if k < |chunks| {
      JoinedLast(chunks, k);
      JoinedPrefix(chunks, k + 1);
    } else {
      assert chunks[..k] == chunks;
    }
  }

  lemma CaughtSoFar(chunks: seq<seq<Byte>>, i: nat)
    requires i < |chunks|
    ensures Caught(chunks[..i + 1]) <==> Caught(chunks[..i]) || CaughtIn(chunks, i)
  {
    var one, two := chunks[..i], chunks[..i + 1];
    assert two[..i] == one && two[..i + 1] == two;
    forall k | 0 <= k < i
      ensures CaughtIn(one, k) == CaughtIn(two, k)
    {
      assert one[..k] == two[..k] && one[..k + 1] == two[..k + 1];
    }
    if Caught(one) {
      var k :| 0 <= k < i && CaughtIn(one, k);
      assert CaughtIn(two, k);
    }
    assert CaughtIn(two, i) == CaughtIn(chunks, i);
  }

  lemma CaughtNow(chunks: seq<seq<Byte>>, k: nat)
    requires k < |chunks|
    ensures CaughtIn(chunks, k) <==>
            |Joined(chunks[..k])| < WINDOW && !Has(Joined(chunks[..k]), QUERY) && Has(Joined(chunks[..k + 1]), QUERY)
  {
  }

  /**
   * A whole terminal session, read by read. The question is taken out and answered exactly once
   * when the read it ends in began within the first 4,096 bytes; otherwise nothing is answered and
   * nothing is lost but for the up to three bytes still held.
   */
  method Relay(chunks: seq<seq<Byte>>) returns (out: seq<Byte>, replies: nat, held: seq<Byte>)
    ensures Caught(chunks) ==> replies == 1 && held == [] && IsWithout(out, Joined(chunks), QUERY)
    ensures !Caught(chunks) ==> replies == 0 && out + held == Joined(chunks) && |held| <= 3
    ensures !Caught(chunks) && |Joined(chunks)| >= WINDOW ==> held == []
  {
    hide Has, IsWithout, CaughtIn;
    var handshake := new CursorHandshake();
    out, replies := [], 0;
    for i := 0 to |chunks|
      invariant handshake.Valid() && handshake.input == Joined(chunks[..i]) && handshake.output == out && handshake.replies == replies
      invariant Caught(chunks[..i]) <==> replies == 1
      invariant handshake.done && replies == 0 ==> |handshake.input| >= WINDOW
      invariant !handshake.done ==> |handshake.input| < WINDOW
    {
      CaughtSoFar(chunks, i);
      CaughtNow(chunks, i);
      JoinedLast(chunks, i);
      var passed, reply := handshake.Filter(chunks[i]);
      out := out + passed;
      if reply { replies := replies + 1; }
    }
    assert chunks[..|chunks|] == chunks;
    held := handshake.carry;
  }

  /** However the output is cut, a question that ends within the first 4,096 bytes is caught. */
  lemma EarlyQueryIsCaught(chunks: seq<seq<Byte>>, p: nat)
    requires FirstAt(Joined(chunks), QUERY, p) && p + |QUERY| <= WINDOW
    ensures Caught(chunks)
  {
    assert chunks[..|chunks|] == chunks;
    EndsInSomeRead(chunks, p, |chunks|);
  }

  /** In bytes: `ESC [ 6 n` behind whatever holds none, 4,096 bytes in all, is taken out and answered under every cut. */
  lemma QuestionIsCaught(chunks: seq<seq<Byte>>, before: seq<Byte>, after: seq<Byte>)
    requires Joined(chunks) == before + [0x1b, 0x5b, 0x36, 0x6e] + after && |before| + 4 <= 4_096
    requires forall i :: 0 <= i < |before| ==> before[i] != 0x1b
    ensures Caught(chunks)
    ensures forall out :: IsWithout(out, Joined(chunks), QUERY) <==> out == before + after
  {
    var all, p := Joined(chunks), |before|;
    assert all[p..p + 4] == QUERY && all[..p] + all[p + 4..] == before + after;
    assert OccursAt(all, QUERY, p);
    forall q: nat | q < p
      ensures !OccursAt(all, QUERY, q)
    {
      if q + 4 <= |all| { assert all[q..q + 4][0] == before[q]; }
    }
    assert FirstAt(all, QUERY, p);
    EarlyQueryIsCaught(chunks, p);
    forall out
      ensures IsWithout(out, all, QUERY) <==> out == before + after
    {
      if IsWithout(out, all, QUERY) {
        var q: nat :| FirstAt(all, QUERY, q) && out == all[..q] + all[q + 4..];
        assert q == p;
      }
    }
  }

  lemma {:induction false} EndsInSomeRead(chunks: seq<seq<Byte>>, p: nat, k: nat)
    requires FirstAt(Joined(chunks), QUERY, p) && p + |QUERY| <= WINDOW
    requires k <= |chunks| && p + |QUERY| <= |Joined(chunks[..k])|
    ensures Caught(chunks)
  {
    assert k > 0;
    JoinedLast(chunks, k - 1);
    if p + |QUERY| <= |Joined(chunks[..k - 1])| {
      EndsInSomeRead(chunks, p, k - 1);
    } else {
      var all, before, upTo := Joined(chunks), Joined(chunks[..k - 1]), Joined(chunks[..k]);
      JoinedPrefix(chunks, k - 1);
      JoinedPrefix(chunks, k);
      assert upTo[p..p + |QUERY|] == all[p..p + |QUERY|];
      assert OccursAt(upTo, QUERY, p);
      forall q: nat
        ensures !OccursAt(before, QUERY, q)
      {
        if OccursAt(before, QUERY, q) {
          assert before[q..q + |QUERY|] == all[q..q + |QUERY|];
          assert OccursAt(all, QUERY, q);
        }
      }
      assert CaughtIn(chunks, k - 1);
    }
  }

  /** Past the window it depends on the cut: one read is caught, the same bytes in two are not. */
  lemma LateQueryDepends(filler: seq<Byte>)
    requires |filler| == WINDOW && forall i :: 0 <= i < |filler| ==> filler[i] == 0x78
    ensures Caught([filler + QUERY]) && !Caught([filler, QUERY])
  {
    var whole := filler + QUERY;
    assert whole[WINDOW..WINDOW + |QUERY|] == QUERY;
    assert OccursAt(whole, QUERY, WINDOW);
    var one: seq<seq<Byte>>, two: seq<seq<Byte>> := [whole], [filler, QUERY];
    JoinedLast(one, 0);
    assert one[..0] == [] && one[..1] == one;
    assert Joined(one[..0]) == [] && Joined(one[..1]) == whole;
    assert CaughtIn(one, 0);
    JoinedLast(two, 0);
    assert two[..0] == [] && two[..1] == [filler] && two[..2] == two;
    assert Joined(two[..0]) == [] && Joined(two[..1]) == filler;
    forall q: nat
      ensures !OccursAt(filler, QUERY, q)
    {
      if q + |QUERY| <= |filler| { assert filler[q..q + |QUERY|][0] == 0x78; }
    }
  }
}
