/**
 * When a reply has started to loop, said of its history alone: the sentences closed so far, in
 * order. The window is the end of the history that fits 6,000 characters.
 */
module RepeatHistory {
  const REPEAT_WINDOW_CHARS: nat := 6000
  const REPEAT_SAME_SENTENCE: nat := 5
  const REPEAT_MIN_SENTENCE: nat := 8
  const REPEAT_MIN_SENTENCES: nat := 20

  /** A sentence that counted: what it is compared by, and its length as written. */
  datatype Entry = Entry(key: string, chars: nat)

  function Total(h: seq<Entry>): nat {
    if h == [] then 0 else Total(h[..|h| - 1]) + h[|h| - 1].chars
  }

  function Copies(h: seq<Entry>, key: string): nat {
    if h == [] then 0 else Copies(h[..|h| - 1], key) + (if h[|h| - 1].key == key then 1 else 0)
  }

  /** The history from `s` on fits the window; its last sentence always does. */
  predicate Fits(h: seq<Entry>, s: nat)
    requires s <= |h|
  {
    s + 1 >= |h| || Total(h[s..]) <= REPEAT_WINDOW_CHARS
  }

  /** Where the longest end that fits begins, looked for from `s` on. */
  function StartFrom(h: seq<Entry>, s: nat): (r: nat)
    requires s <= |h|
    ensures s <= r <= |h| && Fits(h, r) && forall k :: s <= k < r ==> !Fits(h, k)
    decreases |h| - s
  {
    if Fits(h, s) then s else StartFrom(h, s + 1)
  }

  function Start(h: seq<Entry>): nat {
    StartFrom(h, 0)
  }

  function Window(h: seq<Entry>): seq<Entry> {
    h[Start(h)..]
  }

  predicate HasKey(h: seq<Entry>, key: string) {
    exists i :: 0 <= i < |h| && h[i].key == key
  }

  /** The sentence at `r` was not in the window when it closed. */
  predicate New(h: seq<Entry>, r: nat)
    requires r < |h|
  {
    !HasKey(Window(h[..r]), h[r].key)
  }

  /**
   * The same-sentence rule: five copies of the sentence that just closed are in the window, it is
   * long enough, and every sentence closed since the first of them was one the window held.
   */
  ghost predicate SameSentence(h: seq<Entry>) {
    h != [] &&
    var key := h[|h| - 1].key;
    |key| >= REPEAT_MIN_SENTENCE &&
    exists s :: Start(h) <= s < |h| && h[s].key == key && Copies(h[s..], key) >= REPEAT_SAME_SENTENCE && NoneNew(h, s)
  }

  predicate NoneNew(h: seq<Entry>, s: nat)
    requires s < |h|
  {
    forall r :: s < r < |h| ==> !New(h, r)
  }

  ghost function Keys(h: seq<Entry>): set<string> {
    set i | 0 <= i < |h| :: h[i].key
  }

  /** The share rule: twenty sentences or more in the window, fewer than a fifth of them distinct. */
  ghost predicate FewDistinct(h: seq<Entry>) {
    |Window(h)| >= REPEAT_MIN_SENTENCES && 5 * |Keys(Window(h))| < |Window(h)|
  }

  ghost predicate Fires(h: seq<Entry>, sameSentenceOnly: bool) {
    SameSentence(h) || (!sameSentenceOnly && FewDistinct(h))
  }

  /** Some sentence so far closed a loop. */
  ghost predicate Looped(h: seq<Entry>, sameSentenceOnly: bool) {
    exists n :: 1 <= n <= |h| && Fires(h[..n], sameSentenceOnly)
  }

  lemma LoopedGrows(h: seq<Entry>, e: Entry, sameSentenceOnly: bool)
    ensures Looped(h + [e], sameSentenceOnly) <==> Looped(h, sameSentenceOnly) || Fires(h + [e], sameSentenceOnly)
  {
    assert forall n: nat :: n <= |h| ==> (h + [e])[..n] == h[..n];
    assert (h + [e])[..|h| + 1] == h + [e];
  }

  lemma LoopedStays(h: seq<Entry>, more: seq<Entry>, sameSentenceOnly: bool)
    requires Looped(h, sameSentenceOnly)
    ensures Looped(h + more, sameSentenceOnly)
  {
    var n :| 1 <= n <= |h| && Fires(h[..n], sameSentenceOnly);
    assert (h + more)[..n] == h[..n];
  }

  // ---- Sums and counts ----

  lemma {:induction false} TotalConcat(a: seq<Entry>, b: seq<Entry>)
    ensures Total(a + b) == Total(a) + Total(b)
  {
    if b == [] {
      assert a + b == a;
    } else {
      assert (a + b)[..|a + b| - 1] == a + b[..|b| - 1];
      TotalConcat(a, b[..|b| - 1]);
    }
  }

  lemma {:induction false} CopiesConcat(a: seq<Entry>, b: seq<Entry>, key: string)
    ensures Copies(a + b, key) == Copies(a, key) + Copies(b, key)
  {
    if b == [] {
      assert a + b == a;
    } else {
      assert (a + b)[..|a + b| - 1] == a + b[..|b| - 1];
      CopiesConcat(a, b[..|b| - 1], key);
    }
  }

  lemma CopiesFront(h: seq<Entry>, key: string)
    requires h != []
    ensures Copies(h, key) == (if h[0].key == key then 1 else 0) + Copies(h[1..], key)
    ensures Total(h) == h[0].chars + Total(h[1..])
  {
    assert h == [h[0]] + h[1..];
    CopiesConcat([h[0]], h[1..], key);
    TotalConcat([h[0]], h[1..]);
    assert [h[0]][..0] == [];
    assert Copies([h[0]], key) == Copies([], key) + (if h[0].key == key then 1 else 0);
    assert Total([h[0]]) == Total([]) + h[0].chars;
  }

  lemma {:induction false} CopiesPositive(h: seq<Entry>, key: string)
    ensures Copies(h, key) > 0 <==> HasKey(h, key)
  {
    if h != [] {
      var front := h[..|h| - 1];
      CopiesPositive(front, key);
      if HasKey(h, key) && h[|h| - 1].key != key {
        var i :| 0 <= i < |h| && h[i].key == key;
        assert front[i].key == key;
      }
      if HasKey(front, key) {
        var i :| 0 <= i < |front| && front[i].key == key;
        assert h[i].key == key;
      }
    }
  }

  lemma CopiesLast(h: seq<Entry>, e: Entry, key: string)
    ensures Copies(h + [e], key) == Copies(h, key) + (if e.key == key then 1 else 0)
    ensures Total(h + [e]) == Total(h) + e.chars
  {
    assert (h + [e])[..|h|] == h;
  }

  /** What no longer fit before does not fit after one more sentence. */
  lemma StartGrows(h: seq<Entry>, e: Entry)
    ensures Start(h) <= Start(h + [e])
  {
    var h' := h + [e];
    if Start(h') < Start(h) {
      var s := Start(h');
      assert !Fits(h, s);
      assert h'[s..] == h[s..] + [e];
      CopiesLast(h[s..], e, "");
      assert false;
    }
  }

  // ---- Runs of copies ----

  /**
   * What the watch keeps of one sentence in the window: its last copy closed as number `at`, and
   * `copies` of them ran up to it. `s` is where that run began: nothing new closed in between, and
   * something new closed between any earlier copy and `s`.
   */
  ghost predicate RunOk(h: seq<Entry>, key: string, at: nat, copies: nat, s: nat) {
    && s < at <= |h| && h[s].key == key && h[at - 1].key == key
    && (forall r :: at <= r < |h| ==> h[r].key != key)
    && Copies(h[s..], key) == copies
    && (forall r :: s < r < at ==> !New(h, r))
    && (forall s' :: 0 <= s' < s && h[s'].key == key ==> SomethingNew(h, s', s))
  }

  ghost predicate SomethingNew(h: seq<Entry>, after: nat, upTo: nat)
    requires upTo < |h|
  {
    exists r :: after < r <= upTo && New(h, r)
  }

  /** `n` counts the sentences up to the last new one. */
  ghost predicate LastNewOk(h: seq<Entry>, n: nat) {
    && n <= |h|
    && (n > 0 ==> New(h, n - 1))
    && forall r :: n <= r < |h| ==> !New(h, r)
  }

  lemma NewStays(h: seq<Entry>, e: Entry, r: nat)
    requires r < |h|
    ensures New(h + [e], r) == New(h, r)
  {
    assert (h + [e])[..r] == h[..r];
  }

  lemma LastIsNew(h: seq<Entry>, e: Entry)
    ensures New(h + [e], |h|) <==> !HasKey(Window(h), e.key)
  {
    assert (h + [e])[..|h|] == h;
  }

  lemma LastNewStep(h: seq<Entry>, e: Entry, n: nat)
    requires LastNewOk(h, n)
    ensures LastNewOk(h + [e], if HasKey(Window(h), e.key) then n else |h| + 1)
  {
    LastIsNew(h, e);
    forall r | 0 <= r < |h|
      ensures New(h + [e], r) == New(h, r)
    {
      NewStays(h, e, r);
    }
  }

  /** Another sentence closes: the runs of the others stand. */
  lemma OtherRunStands(h: seq<Entry>, e: Entry, key: string, at: nat, copies: nat, s: nat)
    requires RunOk(h, key, at, copies, s) && e.key != key
    ensures RunOk(h + [e], key, at, copies, s)
  {
    var h' := h + [e];
    assert h'[s..] == h[s..] + [e];
    CopiesLast(h[s..], e, key);
    forall r | 0 <= r < |h|
      ensures New(h', r) == New(h, r)
    {
      NewStays(h, e, r);
    }
    forall s' | 0 <= s' < s && h'[s'].key == key
      ensures SomethingNew(h', s', s)
    {
      assert SomethingNew(h, s', s);
    }
  }

  /** A copy with nothing new since the one before goes on with its run. */
  lemma RunGoesOn(h: seq<Entry>, e: Entry, at: nat, copies: nat, s: nat, n: nat)
    requires RunOk(h, e.key, at, copies, s) && LastNewOk(h, n) && n <= at && HasKey(Window(h), e.key)
    ensures RunOk(h + [e], e.key, |h| + 1, copies + 1, s)
  {
    var h' := h + [e];
    assert h'[s..] == h[s..] + [e];
    CopiesLast(h[s..], e, e.key);
    LastIsNew(h, e);
    forall r | 0 <= r < |h|
      ensures New(h', r) == New(h, r)
    {
      NewStays(h, e, r);
    }
    forall s' | 0 <= s' < s && h'[s'].key == e.key
      ensures SomethingNew(h', s', s)
    {
      assert SomethingNew(h, s', s);
    }
  }

  /** A copy behind something new, or new itself, starts a run of its own. */
  lemma RunStarts(h: seq<Entry>, e: Entry)
    requires forall s' :: 0 <= s' < |h| && h[s'].key == e.key ==> SomethingNew(h + [e], s', |h|)
    ensures RunOk(h + [e], e.key, |h| + 1, 1, |h|)
  {
    var h' := h + [e];
    assert h'[|h|..] == [e];
    assert [e][..0] == [];
    assert Copies([e], e.key) == Copies([], e.key) + 1;
  }

  lemma NewSentenceStarts(h: seq<Entry>, e: Entry)
    requires !HasKey(Window(h), e.key)
    ensures RunOk(h + [e], e.key, |h| + 1, 1, |h|)
  {
    LastIsNew(h, e);
    RunStarts(h, e);
  }

  lemma BrokenRunStarts(h: seq<Entry>, e: Entry, at: nat, copies: nat, s: nat, n: nat)
    requires RunOk(h, e.key, at, copies, s) && LastNewOk(h, n) && n > at
    ensures RunOk(h + [e], e.key, |h| + 1, 1, |h|)
  {
    NewStays(h, e, n - 1);
    assert New(h + [e], n - 1);
    RunStarts(h, e);
  }

  lemma {:induction false} FirstCopy(h: seq<Entry>, key: string) returns (s: nat)
    requires Copies(h, key) > 0
    ensures s < |h| && h[s].key == key && Copies(h[s..], key) == Copies(h, key)
  {
    CopiesFront(h, key);
    if h[0].key == key {
      s := 0;
      assert h[0..] == h;
    } else {
      var t := FirstCopy(h[1..], key);
      s := t + 1;
      assert h[1..][t..] == h[s..];
    }
  }

  lemma CopiesFewerLater(h: seq<Entry>, key: string, s: nat, t: nat)
    requires s <= t <= |h|
    ensures Copies(h[t..], key) <= Copies(h[s..], key)
  {
    assert h[s..] == h[s..t] + h[t..];
    CopiesConcat(h[s..t], h[t..], key);
  }

  /** The counters decide the same-sentence rule exactly. */
  lemma CountersDecide(h: seq<Entry>, copies: nat, s: nat)
    requires h != [] && RunOk(h, h[|h| - 1].key, |h|, copies, s)
    ensures SameSentence(h) <==>
            |h[|h| - 1].key| >= REPEAT_MIN_SENTENCE && copies >= REPEAT_SAME_SENTENCE
            && Copies(Window(h), h[|h| - 1].key) >= REPEAT_SAME_SENTENCE
  {
    hide Copies, New;
    var key, start := h[|h| - 1].key, Start(h);
    if copies >= REPEAT_SAME_SENTENCE && Copies(h[start..], key) >= REPEAT_SAME_SENTENCE {
      var t := FirstCopy(h[start..], key);
      assert h[start..][t..] == h[start + t..];
      var first := if s >= start then s else start + t;
      assert start <= first && NoneNew(h, first) && Copies(h[first..], key) >= REPEAT_SAME_SENTENCE;
    }
    if s' :| start <= s' < |h| && h[s'].key == key && Copies(h[s'..], key) >= REPEAT_SAME_SENTENCE && NoneNew(h, s') {
      CopiesFewerLater(h, key, start, s');
      CopiesFewerLater(h, key, s, s');
    }
  }
}
