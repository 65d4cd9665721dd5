/**
 * The watch itself: fields that change with every character, counters that move with the window.
 * What it says at any point is what the history says.
 */
module RepeatWatch {
  import opened JsStrings
  import opened Lists
  import opened RepeatHistory
  import opened RepeatLines

  datatype Run = Run(at: nat, copies: nat)

  /** The sentences that count, by what they are compared by: `fold` keeps letters and digits. */
  function Keyed(said: seq<string>, fold: string -> string): seq<Entry> {
    if said == [] then []
    else
      var last := said[|said| - 1];
      Keyed(said[..|said| - 1], fold) + (if fold(last) == "" then [] else [Entry(fold(last), Units(last))])
  }

  lemma {:induction false} KeyedConcat(a: seq<string>, b: seq<string>, fold: string -> string)
    ensures Keyed(a + b, fold) == Keyed(a, fold) + Keyed(b, fold)
  {
    if b == [] {
      assert a + b == a;
    } else {
      assert (a + b)[..|a + b| - 1] == a + b[..|b| - 1];
      KeyedConcat(a, b[..|b| - 1], fold);
    }
  }

  lemma KeyedLast(said: seq<string>, s: string, fold: string -> string)
    ensures Keyed(said + [s], fold) == Keyed(said, fold) + (if fold(s) == "" then [] else [Entry(fold(s), Units(s))])
  {
    assert (said + [s])[..|said|] == said;
  }

  /** What the watch keeps of the window, and where each run in it started. */
  datatype Counters = Counters(
    window: seq<Entry>, chars: nat, counts: map<string, nat>, runs: map<string, Run>, starts: map<string, nat>, closed: nat, lastNew: nat)

  /** The counts of the window: `w` is its sentences. */
  ghost predicate CountsOk(w: seq<Entry>, counts: map<string, nat>) {
    forall key :: (key in counts <==> HasKey(w, key)) && (key in counts ==> counts[key] == Copies(w, key))
  }

  ghost predicate RunsOk(h: seq<Entry>, k: Counters) {
    && k.runs.Keys == k.counts.Keys == k.starts.Keys
    && forall key :: key in k.runs ==> RunOk(h, key, k.runs[key].at, k.runs[key].copies, k.starts[key])
  }

  /** All that the watch keeps, against the history. */
  ghost predicate CountersOk(h: seq<Entry>, k: Counters) {
    && k.window == Window(h) && k.chars == Total(k.window)
    && k.closed == |h| && LastNewOk(h, k.lastNew)
    && CountsOk(k.window, k.counts) && RunsOk(h, k)
  }

  lemma StartsValid(fold: string -> string, sameSentenceOnly: bool)
    ensures CountersOk([], Counters([], 0, map[], map[], map[], 0, 0))
    ensures !Looped([], sameSentenceOnly) && Keyed([], fold) == []
  {
  }

  /** A sentence joins the counters. */
  lemma CountJoins(w: seq<Entry>, e: Entry, counts: map<string, nat>)
    requires CountsOk(w, counts)
    ensures CountsOk(w + [e], counts[e.key := (if e.key in counts then counts[e.key] else 0) + 1])
  {
    forall key
      ensures HasKey(w + [e], key) <==> HasKey(w, key) || key == e.key
      ensures Copies(w + [e], key) == Copies(w, key) + (if e.key == key then 1 else 0)
    {
      CopiesLast(w, e, key);
      assert (w + [e])[|w|] == e;
      assert forall i :: 0 <= i < |w| ==> (w + [e])[i] == w[i];
    }
    CopiesPositive(w, e.key);
  }

  /** The oldest sentence leaves the counters. */
  lemma CountLeaves(w: seq<Entry>, counts: map<string, nat>)
    requires w != [] && CountsOk(w, counts)
    ensures w[0].key in counts && counts[w[0].key] >= 1
    ensures CountsOk(w[1..], if counts[w[0].key] > 1 then counts[w[0].key := counts[w[0].key] - 1] else counts - {w[0].key})
  {
    var oldest := w[0].key;
    assert HasKey(w, oldest);
    forall key
      ensures Copies(w[1..], key) == Copies(w, key) - (if oldest == key then 1 else 0)
      ensures HasKey(w[1..], key) <==> Copies(w[1..], key) > 0
      ensures HasKey(w, key) <==> Copies(w, key) > 0
    {
      CopiesFront(w, key);
      CopiesPositive(w, key);
      CopiesPositive(w[1..], key);
    }
  }

  /** The counters while the window is being trimmed: it still holds what came from `at` on. */
  ghost predicate Untrimmed(h: seq<Entry>, at: nat, k: Counters) {
    && at < |h| && at <= Start(h) && k.window == h[at..] && k.chars == Total(k.window)
    && CountsOk(k.window, k.counts) && RunsOk(h, k)
  }

  predicate HasOldest(k: Counters) {
    k.window != [] && k.chars >= k.window[0].chars && k.window[0].key in k.counts && k.counts[k.window[0].key] >= 1
  }

  /** The counters without the oldest sentence of the window. */
  function WithoutOldest(k: Counters): Counters
    requires HasOldest(k)
  {
    var key, left := k.window[0].key, k.counts[k.window[0].key] - 1;
    var shorter := k.(window := k.window[1..], chars := k.chars - k.window[0].chars);
    if left > 0 then shorter.(counts := k.counts[key := left])
    else shorter.(counts := k.counts - {key}, runs := k.runs - {key}, starts := k.starts - {key})
  }

  lemma RunsDrop(h: seq<Entry>, k: Counters)
    requires RunsOk(h, k) && HasOldest(k)
    ensures RunsOk(h, WithoutOldest(k))
  {
    hide RunOk;
  }

  lemma OneMoreGoes(h: seq<Entry>, at: nat)
    requires at + 1 < |h| && at <= Start(h) && Total(h[at..]) > REPEAT_WINDOW_CHARS
    ensures at + 1 <= Start(h) && h[at..][1..] == h[at + 1..]
  {
    assert !Fits(h, at);
  }

  lemma OldestLeaves(h: seq<Entry>, at: nat, k: Counters)
    requires Untrimmed(h, at, k) && k.chars > REPEAT_WINDOW_CHARS && |k.window| > 1
    ensures HasOldest(k) && Untrimmed(h, at + 1, WithoutOldest(k))
  {
    hide CountsOk, RunsOk, Copies, Total, Start;
    CountLeaves(k.window, k.counts);
    CopiesFront(k.window, k.window[0].key);
    OneMoreGoes(h, at);
    RunsDrop(h, k);
  }

  lemma TrimmedEnough(h: seq<Entry>, at: nat, k: Counters)
    requires Untrimmed(h, at, k) && (k.chars <= REPEAT_WINDOW_CHARS || |k.window| <= 1)
    ensures at == Start(h)
  {
    hide CountsOk, RunsOk;
    assert Fits(h, at);
  }

  lemma ClosedCounts(h: seq<Entry>, k: Counters)
    requires CountersOk(h, k)
    ensures k.closed == |h|
  {
  }

  lemma Either(h: seq<Entry>, only: bool)
    ensures Fires(h, only) <==> SameSentence(h) || (!only && FewDistinct(h))
  {
  }

  predicate GoesOn(key: string, k: Counters) {
    key in k.runs && k.lastNew <= k.runs[key].at
  }

  lemma InRunsInWindow(h: seq<Entry>, k: Counters, key: string)
    requires CountsOk(k.window, k.counts) && RunsOk(h, k)
    ensures key in k.runs <==> HasKey(k.window, key)
    ensures key in k.runs ==> key in k.starts && RunOk(h, key, k.runs[key].at, k.runs[key].copies, k.starts[key])
  {
    hide RunOk, HasKey;
  }

  /** The run the newest sentence belongs to. */
  lemma RunOfNewest(h: seq<Entry>, e: Entry, k: Counters)
    requires CountersOk(h, k)
    ensures e.key in k.runs ==> e.key in k.starts
    ensures GoesOn(e.key, k) ==> RunOk(h + [e], e.key, |h| + 1, k.runs[e.key].copies + 1, k.starts[e.key])
    ensures !GoesOn(e.key, k) ==> RunOk(h + [e], e.key, |h| + 1, 1, |h|)
    ensures LastNewOk(h + [e], if e.key in k.runs then k.lastNew else k.closed + 1)
  {
    hide RunOk, CountsOk, RunsOk, HasKey, LastNewOk, Window, Total;
    InRunsInWindow(h, k, e.key);
    LastNewStep(h, e, k.lastNew);
    if e.key !in k.runs {
      NewSentenceStarts(h, e);
    } else if k.lastNew <= k.runs[e.key].at {
      RunGoesOn(h, e, k.runs[e.key].at, k.runs[e.key].copies, k.starts[e.key], k.lastNew);
    } else {
      BrokenRunStarts(h, e, k.runs[e.key].at, k.runs[e.key].copies, k.starts[e.key], k.lastNew);
    }
  }

  /** The counters with a newest sentence, before any is let go. */
  function WithNewest(k: Counters, e: Entry, copies: nat, start: nat): Counters {
    Counters(
      k.window + [e], k.chars + e.chars, k.counts[e.key := (if e.key in k.counts then k.counts[e.key] else 0) + 1],
      k.runs[e.key := Run(k.closed + 1, copies)], k.starts[e.key := start],
      k.closed + 1, if e.key in k.runs then k.lastNew else k.closed + 1)
  }

  lemma RunsJoin(h: seq<Entry>, e: Entry, k: Counters, copies: nat, start: nat)
    requires RunsOk(h, k) && k.closed == |h| && RunOk(h + [e], e.key, |h| + 1, copies, start)
    ensures RunsOk(h + [e], WithNewest(k, e, copies, start))
  {
    hide RunOk;
    OthersStand(h, e, k);
    KeyJoins(k.counts, e.key, (if e.key in k.counts then k.counts[e.key] else 0) + 1);
    KeyJoins(k.runs, e.key, Run(|h| + 1, copies));
    KeyJoins(k.starts, e.key, start);
  }

  lemma KeyJoins<K, V>(m: map<K, V>, k: K, v: V)
    ensures m[k := v].Keys == m.Keys + {k}
  {
  }

  /** The newest sentence in the window, before any is let go. */
  lemma Joins(h: seq<Entry>, e: Entry, k: Counters, copies: nat, start: nat)
    requires CountersOk(h, k) && RunOk(h + [e], e.key, |h| + 1, copies, start)
    ensures Untrimmed(h + [e], Start(h), WithNewest(k, e, copies, start))
  {
    hide RunOk, CountsOk, RunsOk, Copies, Total, LastNewOk, StartFrom;
    RunsJoin(h, e, k, copies, start);
    CountJoins(k.window, e, k.counts);
    CopiesLast(k.window, e, e.key);
    StartGrows(h, e);
    assert k.window + [e] == (h + [e])[Start(h)..];
  }

  /** What the counters say of the newest sentence is what the history says. */
  lemma Decides(h: seq<Entry>, k: Counters, copies: nat, start: nat)
    requires h != [] && k.closed == |h| && LastNewOk(h, k.lastNew) && Untrimmed(h, Start(h), k)
    requires RunOk(h, h[|h| - 1].key, |h|, copies, start)
    ensures CountersOk(h, k) && h[|h| - 1].key in k.counts
    ensures var key := h[|h| - 1].key;
            SameSentence(h) <==> copies >= REPEAT_SAME_SENTENCE && k.counts[key] >= REPEAT_SAME_SENTENCE && |key| >= REPEAT_MIN_SENTENCE
    ensures FewDistinct(h) <==> |k.window| >= REPEAT_MIN_SENTENCES && 5 * |k.counts| < |k.window|
  {
    LastInWindow(h);
    assert HasKey(k.window, h[|h| - 1].key);
    CountersDecide(h, copies, start);
    DistinctKeys(k.window, k.counts);
    hide RunOk, SameSentence, Copies, Keys, LastNewOk;
  }

  lemma DistinctKeys(w: seq<Entry>, counts: map<string, nat>)
    requires CountsOk(w, counts)
    ensures |counts| == |Keys(w)|
  {
    assert counts.Keys == Keys(w);
  }

  class RepeatWatch {
    const fold: string -> string
    const sameSentenceOnly: bool
    var sentence: string
    var head: string
    var line: Line
    var inFence: bool
    var dot: bool
    var window: seq<Entry>
    var windowChars: nat
    var counts: map<string, nat>
    var runs: map<string, Run>
    var closed: nat
    var lastNew: nat
    var looped: bool
    /** Every non-empty sentence closed, and those of them that counted. */
    ghost var said: seq<string>
    ghost var hist: seq<Entry>
    ghost var starts: map<string, nat>

    ghost function Snapshot(): Machine
      reads this
    {
      Machine(sentence, head, line, inFence, dot)
    }

    ghost function Kept(): Counters
      reads this
    {
      Counters(window, windowChars, counts, runs, starts, closed, lastNew)
    }

    ghost predicate Valid()
      reads this
    {
      && hist == Keyed(said, fold)
      && CountersOk(hist, Kept())
      && (looped <==> Looped(hist, sameSentenceOnly))
    }

    constructor (fold: string -> string, sameSentenceOnly: bool)
      ensures Valid() && Snapshot() == INITIAL && said == [] && !looped
      ensures this.fold == fold && this.sameSentenceOnly == sameSentenceOnly
    {
      StartsValid(fold, sameSentenceOnly);
      hide CountersOk, Looped, Keyed;
      this.fold, this.sameSentenceOnly := fold, sameSentenceOnly;
      sentence, head, line, inFence, dot := "", "", AtStart, false, false;
      window, windowChars, counts, runs, closed, lastNew, looped := [], 0, map[], map[], 0, 0, false;
      said, hist, starts := [], [], map[];
    }

    /** The oldest sentences leave while the window is too long. */
    method Trim(ghost from: nat)
      requires Untrimmed(hist, from, Kept())
      modifies this`window, this`windowChars, this`counts, this`runs, this`starts
      ensures Untrimmed(hist, Start(hist), Kept())
    {
      hide Untrimmed, Start;
      ghost var at := from;
      while windowChars > REPEAT_WINDOW_CHARS && |window| > 1
        invariant Untrimmed(hist, at, Kept())
        decreases |window|
      {
        OldestLeaves(hist, at, Kept());
        ghost var shorter := WithoutOldest(Kept());
        var oldest := window[0];
        window := window[1..];
        windowChars := windowChars - oldest.chars;
        var left := counts[oldest.key] - 1;
        if left > 0 {
          counts := counts[oldest.key := left];
        } else {
          counts := counts - {oldest.key};
          runs := runs - {oldest.key};
          starts := starts - {oldest.key};
        }
        assert Kept() == shorter;
        at := at + 1;
      }
      TrimmedEnough(hist, at, Kept());
    }

    /** `close`: the sentence so far counts, and may close a loop. */
    method CloseSentence()
      requires Valid()
      modifies this
      ensures Valid()
      ensures Snapshot() == Close(old(Snapshot())).m && said == old(said) + Close(old(Snapshot())).closed
    {
      hide CountersOk, Looped, Keyed, Units;
      var text := sentence;
      sentence := "";
      dot := false;
      if text == "" {
        assert said + [] == said;
        return;
      }
      var key := fold(text);
      KeyedLast(said, text, fold);
      said := said + [text];
      if key == "" {
        assert hist + [] == hist;
        return;
      }
      Count(key, Units(text));
    }

    /** The newest sentence enters the counters, before any is let go. */
    method Enter(e: Entry) returns (copies: nat, ghost start: nat)
      requires CountersOk(hist, Kept())
      modifies this`window, this`windowChars, this`counts, this`runs, this`closed, this`lastNew, this`hist, this`starts
      ensures hist == old(hist) + [e] && closed == |hist| && LastNewOk(hist, lastNew)
      ensures Untrimmed(hist, Start(old(hist)), Kept())
      ensures RunOk(hist, e.key, |hist|, copies, start)
    {
      hide CountersOk, RunOk, CountsOk, RunsOk, Untrimmed, LastNewOk, Start;
      ghost var h, before := hist, Kept();
      ClosedCounts(h, before);
      RunOfNewest(h, e, before);
      closed := closed + 1;
      var again := e.key in runs;
      copies := if again && lastNew <= runs[e.key].at then runs[e.key].copies + 1 else 1;
      start := if GoesOn(e.key, before) then starts[e.key] else |h|;
      Joins(h, e, before, copies, start);
      if !again { lastNew := closed; }
      runs := runs[e.key := Run(closed, copies)];
      starts := starts[e.key := start];
      window := window + [e];
      windowChars := windowChars + e.chars;
      counts := counts[e.key := (if e.key in counts then counts[e.key] else 0) + 1];
      hist := h + [e];
      assert Kept() == WithNewest(before, e, copies, start);
    }

    /** The counting half of `close`. */
    method Count(key: string, chars: nat)
      requires CountersOk(hist, Kept())
      requires looped <==> Looped(hist, sameSentenceOnly)
      modifies this`window, this`windowChars, this`counts, this`runs, this`closed, this`lastNew, this`looped, this`hist, this`starts
      ensures hist == old(hist) + [Entry(key, chars)]
      ensures CountersOk(hist, Kept())
      ensures looped <==> Looped(hist, sameSentenceOnly)
    {
      hide CountersOk, RunOk, CountsOk, RunsOk, Untrimmed, Looped, Fires, SameSentence, FewDistinct, Window, Copies, Keys, LastNewOk, Start;
      ghost var h := hist;
      var copies; ghost var start;
      copies, start := Enter(Entry(key, chars));
      Trim(Start(h));
      Decides(hist, Kept(), copies, start);
      LoopedGrows(h, Entry(key, chars), sameSentenceOnly);
      Either(hist, sameSentenceOnly);
      if copies >= REPEAT_SAME_SENTENCE && counts[key] >= REPEAT_SAME_SENTENCE && |key| >= REPEAT_MIN_SENTENCE {
        looped := true;
      }
      if !sameSentenceOnly && |window| >= REPEAT_MIN_SENTENCES && 5 * |counts| < |window| {
        looped := true;
      }
    }

    /** `prose`. */
    method Read(text: string)
      requires Valid()
      modifies this
      ensures Valid()
      ensures Snapshot() == ProseText(old(Snapshot()), text).m && said == old(said) + ProseText(old(Snapshot()), text).closed
    {
      hide CountersOk, Looped, Keyed, ProseText, ProseChar;
      ghost var m0, said0 := Snapshot(), said;
      assert text[..0] == "" && said + [] == said;
      NothingRead(m0);
      for i := 0 to |text|
        invariant Valid()
        invariant Snapshot() == ProseText(m0, text[..i]).m && said == said0 + ProseText(m0, text[..i]).closed
      {
        ghost var m := Snapshot();
        assert text[..i + 1] == text[..i] + [text[i]];
        ProseConcat(m0, text[..i], [text[i]]);
        ProseOne(m, text[i]);
        ReadChar(text[i]);
      }
      assert text[..|text|] == text;
    }

    method ReadChar(ch: char)
      requires Valid()
      modifies this
      ensures Valid()
      ensures Snapshot() == ProseChar(old(Snapshot()), ch).m && said == old(said) + ProseChar(old(Snapshot()), ch).closed
    {
      hide CountersOk, Looped, Keyed, Units;
      if dot {
        dot := false;
        if IsBlank(ch) {
          CloseSentence();
          return;
        }
      }
      sentence := sentence + [ch];
      if EndsSentence(ch) {
        CloseSentence();
      } else if ch == '.' {
        dot := true;
      } else if Units(sentence) >= REPEAT_WINDOW_CHARS {
        CloseSentence();
      }
    }

    /** `take`. */
    method TakeChar(ch: char)
      requires Valid()
      modifies this
      ensures Valid()
      ensures Snapshot() == Take(old(Snapshot()), ch).m && said == old(said) + Take(old(Snapshot()), ch).closed
    {
      hide CountersOk, Looped, Keyed, Units, ProseText, ProseChar, IsFence;
      if ch == '\n' {
        if line == Fence {
          inFence := !inFence;
        } else if line == MaybeFence && !inFence {
          Read(head);
        }
        CloseSentence();
        line := AtStart;
        head := "";
        return;
      }
      if line == AtStart {
        if IsBlank(ch) { return; }
        if ch == '`' || ch == '~' {
          line := MaybeFence;
        } else {
          line := if inFence || ch == '|' then Skip else Prose;
        }
      }
      if line == MaybeFence {
        head := head + [ch];
        if Units(head) < 3 { return; }
        if IsFence(head) {
          line := Fence;
        } else if inFence {
          line := Skip;
        } else {
          line := Prose;
          var text := head;
          head := "";
          Read(text);
        }
        return;
      }
      if line == Prose { ReadChar(ch); }
    }

    /** `feed`: character by character, up to the first loop. */
    method Feed(text: string) returns (loops: bool, ghost taken: nat)
      requires Valid()
      modifies this
      ensures Valid() && loops == looped
      ensures taken <= |text| && (taken < |text| ==> looped)
      ensures Snapshot() == TakeAll(old(Snapshot()), text[..taken]).m && said == old(said) + TakeAll(old(Snapshot()), text[..taken]).closed
    {
      hide CountersOk, Looped, Keyed, Take;
      ghost var m0, said0 := Snapshot(), said;
      taken := 0;
      var i := 0;
      assert said + [] == said;
      while i < |text| && !looped
        invariant i == taken <= |text| && Valid()
        invariant Snapshot() == TakeAll(m0, text[..i]).m && said == said0 + TakeAll(m0, text[..i]).closed
      {
        assert text[..i + 1][..i] == text[..i];
        TakeChar(text[i]);
        i, taken := i + 1, taken + 1;
      }
      loops := looped;
    }

    /** `end`: the sentence still open counts too. */
    method Finish() returns (loops: bool)
      requires Valid()
      modifies this
      ensures Valid() && loops == looped
      ensures said == old(said) + End(old(Snapshot())).closed
    {
      hide CountersOk, Looped, Keyed, ProseText, Close;
      if line == MaybeFence && !inFence { Read(head); }
      CloseSentence();
      loops := looped;
    }
  }

  lemma LastInWindow(h: seq<Entry>)
    requires h != []
    ensures Start(h) < |h| && Window(h)[|Window(h)| - 1] == h[|h| - 1]
  {
    assert Fits(h, |h| - 1);
  }

  lemma OthersStand(h: seq<Entry>, e: Entry, k: Counters)
    requires RunsOk(h, k)
    ensures forall key :: key in k.runs && key != e.key ==> RunOk(h + [e], key, k.runs[key].at, k.runs[key].copies, k.starts[key])
  {
    forall key | key in k.runs && key != e.key
      ensures RunOk(h + [e], key, k.runs[key].at, k.runs[key].copies, k.starts[key])
    {
      OtherRunStands(h, e, key, k.runs[key].at, k.runs[key].copies, k.starts[key]);
    }
  }

  lemma NothingRead(m: Machine)
    ensures ProseText(m, "") == Out(m, []) && TakeAll(m, "") == Out(m, [])
  {
  }

  lemma ProseOne(m: Machine, ch: char)
    ensures ProseText(m, [ch]) == Out(ProseChar(m, ch).m, ProseChar(m, ch).closed + [])
  {
    assert [ch][1..] == "";
    assert ProseText(ProseChar(m, ch).m, "") == Out(ProseChar(m, ch).m, []);
  }

  /** Cut short by a loop or not, what was taken is the front of what the whole text closes. */
  lemma TakenIsFront(m: Machine, text: string, taken: nat)
    requires taken <= |text|
    ensures TakeAll(m, text[..taken]).closed <= AllClosed(m, text)
    ensures taken == |text| ==> AllClosed(m, text) == TakeAll(m, text[..taken]).closed + End(TakeAll(m, text[..taken]).m).closed
  {
    hide TakeAll, End;
    var a, b := text[..taken], text[taken..];
    assert text == a + b;
    TakeAllConcat(m, a, b);
    if taken == |text| { assert a == text; }
  }

  /** A loop in the front of a reply is a loop in the reply. */
  lemma LoopInFront(front: seq<string>, all: seq<string>, fold: string -> string, sameSentenceOnly: bool)
    requires front <= all && Looped(Keyed(front, fold), sameSentenceOnly)
    ensures Looped(Keyed(all, fold), sameSentenceOnly)
  {
    assert all == front + all[|front|..];
    KeyedConcat(front, all[|front|..], fold);
    LoopedStays(Keyed(front, fold), Keyed(all[|front|..], fold), sameSentenceOnly);
  }

  /**
   * `repeatsItself`: a reply loops exactly when, among its sentences read line by line, some
   * sentence closes a loop.
   */
  method RepeatsItself(text: string, fold: string -> string) returns (loops: bool)
    ensures loops <==> Looped(Keyed(Sentences(text, false), fold), false)
  {
    hide CountersOk, Looped, Keyed, TakeAll, End, Sentences;
    var watch := new RepeatWatch(fold, false);
    ghost var taken;
    var fed;
    fed, taken := watch.Feed(text);
    ghost var m, said, looped := watch.Snapshot(), watch.said, watch.looped;
    assert said == TakeAll(INITIAL, text[..taken]).closed;
    TakenIsFront(INITIAL, text, taken);
    MachineIsReference(text);
    loops := watch.Finish();
    if taken < |text| {
      LoopInFront(said, Sentences(text, false), fold, false);
      LoopInFront(said, watch.said, fold, false);
    }
  }

  /** However the reply comes in pieces, the watch answers as for the whole of it. */
  method WatchStream(chunks: seq<string>, fold: string -> string, sameSentenceOnly: bool) returns (loops: bool)
    ensures loops <==> Looped(Keyed(Sentences(Joined(chunks), false), fold), sameSentenceOnly)
  {
    hide CountersOk, Looped, Keyed, TakeAll, End, Sentences;
    var watch := new RepeatWatch(fold, sameSentenceOnly);
    ghost var taken: nat := 0;
    NothingRead(INITIAL);
    assert Joined(chunks[..0])[..0] == "";
    for i := 0 to |chunks|
      invariant watch.Valid() && watch.fold == fold && watch.sameSentenceOnly == sameSentenceOnly
      invariant taken <= |Joined(chunks[..i])| && (taken < |Joined(chunks[..i])| ==> watch.looped)
      invariant watch.Snapshot() == TakeAll(INITIAL, Joined(chunks[..i])[..taken]).m
      invariant watch.said == TakeAll(INITIAL, Joined(chunks[..i])[..taken]).closed
    {
      ghost var before := Joined(chunks[..i]);
      assert chunks[..i + 1][..i] == chunks[..i];
      assert Joined(chunks[..i + 1]) == before + chunks[i];
      if watch.looped {
        assert (before + chunks[i])[..taken] == before[..taken];
      } else {
        ghost var more;
        var fed;
        fed, more := watch.Feed(chunks[i]);
        TakeAllConcat(INITIAL, before, chunks[i][..more]);
        assert before[..taken] == before;
        assert (before + chunks[i])[..taken + more] == before + chunks[i][..more];
        taken := taken + more;
      }
    }
    ghost var text := Joined(chunks);
    assert chunks[..|chunks|] == chunks;
    ghost var said := watch.said;
    TakenIsFront(INITIAL, text, taken);
    MachineIsReference(text);
    loops := watch.Finish();
    if taken < |text| {
      LoopInFront(said, Sentences(text, false), fold, sameSentenceOnly);
      LoopInFront(said, watch.said, fold, sameSentenceOnly);
    }
  }
}
