/**
 * Compacting a turn's loop: where it splits, how much is kept, and how the old part is written out
 * for the summary. Byte counts are whole numbers, shares of what fits are exact reals.
 */
module Compaction {
  import opened Wrappers
  import opened JsStrings
  import opened Anthropic

  // ---- How big a request is ----

  /** The bytes of a character in UTF-8. */
  function Utf8Width(c: char): nat {
    var n := c as int;
    if n < 0x80 then 1 else if n < 0x800 then 2 else if n < 0x1_0000 then 3 else 4
  }

  function Total<T>(size: T -> nat, s: seq<T>): nat {
    if s == [] then 0 else Total(size, s[..|s| - 1]) + size(s[|s| - 1])
  }

  lemma {:induction false} TotalConcat<T>(size: T -> nat, a: seq<T>, b: seq<T>)
    ensures Total(size, a + b) == Total(size, a) + Total(size, b)
  {
    if b == [] {
      assert a + b == a;
    } else {
      assert (a + b)[..|a + b| - 1] == a + b[..|b| - 1];
      TotalConcat(size, a, b[..|b| - 1]);
    }
  }

  lemma TotalNext<T>(size: T -> nat, s: seq<T>, i: nat)
    requires i < |s|
    ensures Total(size, s[..i + 1]) == Total(size, s[..i]) + size(s[i])
  {
    assert s[..i + 1][..i] == s[..i];
  }

  function Utf8(s: string): nat {
    Total(Utf8Width, s)
  }

  function PartBytes(part: Part): nat {
    if part.TextPart? then Utf8(part.text) else 0
  }

  function CallBytes(call: Call): nat {
    Utf8(call.name + call.arguments)
  }

  function ContentBytes(content: Content): nat {
    match content
    case NoContent => 0
    case Plain(text) => Utf8(text)
    case Parts(parts) => Total(PartBytes, parts)
  }

  /** What one message asks the model to read; pictures are not counted. */
  function MessageBytes(m: Message): nat {
    ContentBytes(m.content) + if m.Assistant? then Total(CallBytes, m.calls) else 0
  }

  function LoopBytes(loop: seq<Message>): nat {
    Total(MessageBytes, loop)
  }

  /** `promptBytes`; `tools` is the JSON text of the tool definitions, when there are any. */
  method PromptBytes(messages: seq<Message>, tools: Option<string>) returns (bytes: nat)
    ensures bytes == LoopBytes(messages) + match tools case None => 0 case Some(json) => Utf8(json)
  {
    hide ContentBytes, Utf8;
    bytes := 0;
    for i := 0 to |messages|
      invariant bytes == LoopBytes(messages[..i])
    {
      TotalNext(MessageBytes, messages, i);
      var message := messages[i];
      var content := SizeContent(message.content);
      bytes := bytes + content;
      if message.Assistant? {
        var said := bytes;
        for j := 0 to |message.calls|
          invariant bytes == said + Total(CallBytes, message.calls[..j])
        {
          TotalNext(CallBytes, message.calls, j);
          bytes := bytes + Utf8(message.calls[j].name + message.calls[j].arguments);
        }
        assert message.calls[..|message.calls|] == message.calls;
      }
    }
    assert messages[..|messages|] == messages;
    if tools.Some? { bytes := bytes + Utf8(tools.value); }
  }

  method SizeContent(content: Content) returns (bytes: nat)
    ensures bytes == ContentBytes(content)
  {
    hide Utf8;
    bytes := 0;
    match content
    case NoContent =>
    case Plain(text) => bytes := Utf8(text);
    case Parts(parts) =>
      for j := 0 to |parts|
        invariant bytes == Total(PartBytes, parts[..j])
      {
        TotalNext(PartBytes, parts, j);
        if parts[j].TextPart? { bytes := bytes + Utf8(parts[j].text); }
      }
      assert parts[..|parts|] == parts;
  }

  // ---- Where a loop splits ----

  /** Where the lines read out after the last hop begin. */
  function HopsEnd(loop: seq<Message>): (end: nat)
    ensures end <= |loop|
  {
    if loop == [] || !loop[|loop| - 1].User? then |loop| else HopsEnd(loop[..|loop| - 1])
  }

  predicate FitsTail(loop: seq<Message>, i: nat, end: nat, tailBytes: real)
    requires i < end <= |loop|
  {
    loop[i].Assistant? && LoopBytes(loop[i..end]) as real <= tailBytes
  }

  /** The first of the Bot's lines from `i` on whose hops up to `end` fit, or `end`. */
  function FirstFit(loop: seq<Message>, i: nat, end: nat, tailBytes: real): (start: nat)
    requires i <= end <= |loop|
    ensures i <= start <= end
    ensures start < end ==> FitsTail(loop, start, end, tailBytes)
    ensures forall j :: i <= j < start ==> !FitsTail(loop, j, end, tailBytes)
    decreases end - i
  {
    if i == end || FitsTail(loop, i, end, tailBytes) then i else FirstFit(loop, i + 1, end, tailBytes)
  }

  /** Where the tail starts. */
  function TailStart(loop: seq<Message>, tailBytes: real): (start: nat)
    ensures start <= HopsEnd(loop) <= |loop|
  {
    FirstFit(loop, 0, HopsEnd(loop), tailBytes)
  }

  /** More lines are never fewer bytes. */
  lemma LongerIsBigger(loop: seq<Message>, i: nat, k: nat, end: nat)
    requires i <= k <= end <= |loop|
    ensures LoopBytes(loop[i..end]) >= LoopBytes(loop[k..end])
  {
    assert loop[i..end] == loop[i..k] + loop[k..end];
    TotalConcat(MessageBytes, loop[i..k], loop[k..end]);
  }

  lemma {:induction false} TooMuchFrom(loop: seq<Message>, i: nat, k: nat, end: nat, tailBytes: real)
    requires i <= k < end <= |loop| && LoopBytes(loop[k..end]) as real > tailBytes
    ensures FirstFit(loop, i, end, tailBytes) == FirstFit(loop, k + 1, end, tailBytes)
    decreases k - i
  {
    hide LoopBytes;
    LongerIsBigger(loop, i, k, end);
    if i < k { TooMuchFrom(loop, i + 1, k, end, tailBytes); }
  }

  lemma HopsEndFrom(loop: seq<Message>, end: nat)
    requires end <= |loop| && HopsEnd(loop) == HopsEnd(loop[..end])
    requires end > 0 && loop[end - 1].User?
    ensures HopsEnd(loop) == HopsEnd(loop[..end - 1])
  {
    assert loop[..end][..end - 1] == loop[..end - 1];
  }

  /** `splitLoop`: searching backwards and stopping at the first of the Bot's lines that is too much. */
  method SplitLoop(loop: seq<Message>, tailBytes: real) returns (old': seq<Message>, tail: seq<Message>)
    ensures old' == loop[..TailStart(loop, tailBytes)] && tail == loop[TailStart(loop, tailBytes)..]
  {
    hide LoopBytes;
    var end := |loop|;
    assert loop[..end] == loop;
    while end > 0 && loop[end - 1].User?
      invariant end <= |loop| && HopsEnd(loop) == HopsEnd(loop[..end])
    {
      HopsEndFrom(loop, end);
      end := end - 1;
    }
    var start := end;
    for i := end downto 0
      invariant start <= end && start == FirstFit(loop, i, end, tailBytes)
    {
      if loop[i].Assistant? {
        var bytes := PromptBytes(loop[i..end], None);
        if bytes as real > tailBytes {
          TooMuchFrom(loop, 0, i, end, tailBytes);
          assert start == FirstFit(loop, 0, end, tailBytes);
          break;
        }
        start := i;
      }
    }
    old', tail := loop[..start], loop[start..end] + loop[end..];
  }

  lemma {:induction false} AfterTheHops(loop: seq<Message>)
    ensures forall k :: HopsEnd(loop) <= k < |loop| ==> loop[k].User?
    ensures HopsEnd(loop) > 0 ==> !loop[HopsEnd(loop) - 1].User?
  {
    if loop != [] && loop[|loop| - 1].User? { AfterTheHops(loop[..|loop| - 1]); }
  }

  /**
   * The lines read out after the last hop always stay, and of the hops the most that fit: they
   * start at one of the Bot's own lines, and from no earlier one of those would they fit.
   */
  lemma TailIsLongest(loop: seq<Message>, tailBytes: real)
    ensures var start, end := TailStart(loop, tailBytes), HopsEnd(loop);
            && (forall k :: end <= k < |loop| ==> loop[k].User?)
            && (end > 0 ==> !loop[end - 1].User?)
            && (start < end ==> loop[start].Assistant? && LoopBytes(loop[start..end]) as real <= tailBytes)
            && (forall i :: 0 <= i < start && loop[i].Assistant? ==> LoopBytes(loop[i..end]) as real > tailBytes)
  {
    hide LoopBytes;
    AfterTheHops(loop);
    var start, end := TailStart(loop, tailBytes), HopsEnd(loop);
    forall i | 0 <= i < start && loop[i].Assistant?
      ensures LoopBytes(loop[i..end]) as real > tailBytes
    {
      assert !FitsTail(loop, i, end, tailBytes);
    }
  }

  /** The Bot's line that made the call answered at `k`: the last before it, and it holds the call. */
  predicate Calls(loop: seq<Message>, a: nat, k: nat) {
    && a < k < |loop| && loop[a].Assistant? && loop[k].Tool?
    && (exists c :: c in loop[a].calls && c.id == loop[k].callId)
    && (forall j :: a < j < k ==> !loop[j].Assistant?)
  }

  /** A call and its result are never parted: both are summarized, or both stay. */
  lemma PairsStay(loop: seq<Message>, tailBytes: real, a: nat, k: nat)
    requires Calls(loop, a, k)
    ensures a < TailStart(loop, tailBytes) <==> k < TailStart(loop, tailBytes)
    ensures a >= TailStart(loop, tailBytes) ==>
              var tail := loop[TailStart(loop, tailBytes)..];
              Calls(tail, a - TailStart(loop, tailBytes), k - TailStart(loop, tailBytes))
  {
    AfterTheHops(loop);
    var start := TailStart(loop, tailBytes);
    if a >= start {
      var tail := loop[start..];
      assert tail[a - start] == loop[a] && tail[k - start] == loop[k];
      forall j | a - start < j < k - start
        ensures !tail[j].Assistant?
      {
        assert tail[j] == loop[j + start];
      }
    }
  }

  // ---- The plan ----

  const COMPACT_NEAR_WINDOW: real := 0.75
  const COMPACT_TARGET: real := 0.5
  const COMPACT_TAIL_SHARE: real := 0.2
  const COMPACT_INPUT_SHARE: real := 0.6
  const COMPACT_MIN_BYTES: nat := 8_000
  const COMPACT_SUMMARY_TOKENS: real := 4_000.0
  const DEFAULT_BYTES_PER_TOKEN: real := 4.0

  datatype Size = Size(capacity: real, fixed: real, bytesPerToken: Option<real>) {
    /** What the summary is expected to come to. */
    function Summary(): real {
      COMPACT_SUMMARY_TOKENS * bytesPerToken.GetOr(DEFAULT_BYTES_PER_TOKEN)
    }

    function TailBytes(): real {
      var share, room := capacity * COMPACT_TAIL_SHARE, capacity * COMPACT_TARGET - fixed - Summary();
      var least := if share < room then share else room;
      if least > 0.0 then least else 0.0
    }

    predicate AlreadyNear() {
      fixed + Summary() >= capacity * COMPACT_NEAR_WINDOW
    }
  }

  datatype CompactionPlan = CompactionPlan(old': seq<Message>, tail: seq<Message>, inputBytes: int)

  /** The hops that stay word for word. */
  function KeptHops(loop: seq<Message>, tailBytes: real): seq<Message> {
    loop[TailStart(loop, tailBytes)..HopsEnd(loop)]
  }

  /** The lines read out after the last hop, which always stay. */
  function LinesAfter(loop: seq<Message>): seq<Message> {
    loop[HopsEnd(loop)..]
  }

  function Tail(loop: seq<Message>, size: Size): seq<Message> {
    loop[TailStart(loop, size.TailBytes())..]
  }

  predicate HasPlan(loop: seq<Message>, size: Size) {
    !size.AlreadyNear() && LoopBytes(loop[..TailStart(loop, size.TailBytes())]) >= COMPACT_MIN_BYTES
  }

  /**
   * `planCompaction`. There is no plan exactly when the rest alone comes near what fits or the old
   * part is too small; with a plan nothing of the loop is lost, and the rest, the summary and the
   * kept hops come to less than what counts as near.
   */
  method PlanCompaction(loop: seq<Message>, size: Size) returns (plan: Option<CompactionPlan>)
    ensures plan.Some? <==> HasPlan(loop, size)
    ensures plan.Some? ==>
              var p := plan.value;
              && p.old' + p.tail == loop && |p.old'| == TailStart(loop, size.TailBytes()) && p.tail == Tail(loop, size)
              && LoopBytes(p.old') >= COMPACT_MIN_BYTES
              && LoopBytes(p.old') + LoopBytes(p.tail) == LoopBytes(loop)
              && size.fixed + size.Summary() + LoopBytes(KeptHops(loop, size.TailBytes())) as real < size.capacity * COMPACT_NEAR_WINDOW
              && p.inputBytes as real <= 0.6 * size.capacity < p.inputBytes as real + 1.0
  {
    hide LoopBytes, TailStart;
    if size.fixed + size.Summary() >= size.capacity * COMPACT_NEAR_WINDOW { return None; }
    var tailBytes := size.TailBytes();
    var old', tail := SplitLoop(loop, tailBytes);
    var oldBytes := PromptBytes(old', None);
    if oldBytes < COMPACT_MIN_BYTES { return None; }
    plan := Some(CompactionPlan(old', tail, (size.capacity * COMPACT_INPUT_SHARE).Floor));
    SizesAdd(old', tail);
    KeptFits(loop, size);
  }

  lemma SizesAdd(a: seq<Message>, b: seq<Message>)
    ensures LoopBytes(a + b) == LoopBytes(a) + LoopBytes(b)
  {
    TotalConcat(MessageBytes, a, b);
  }

  /** Hops are kept only where they leave half of what fits; without any, the rest is not near it. */
  lemma KeptFits(loop: seq<Message>, size: Size)
    requires !size.AlreadyNear()
    ensures var kept := LoopBytes(KeptHops(loop, size.TailBytes())) as real;
            && size.fixed + size.Summary() + kept < size.capacity * COMPACT_NEAR_WINDOW
            && (kept > 0.0 ==> size.fixed + size.Summary() + kept <= size.capacity * COMPACT_TARGET && kept <= size.capacity * COMPACT_TAIL_SHARE)
  {
    var tailBytes := size.TailBytes();
    var start, end := TailStart(loop, tailBytes), HopsEnd(loop);
    if start < end {
      assert FitsTail(loop, start, end, tailBytes);
    }
  }

  /** `capacityBytes`: zero and unknown are the same to it. */
  function CapacityBytes(window: real, bytesPerToken: real, fitBytes: real): real {
    if window != 0.0 && bytesPerToken != 0.0 then if window * bytesPerToken > fitBytes then window * bytesPerToken else fitBytes
    else fitBytes
  }

  /** `nearWindow` */
  predicate NearWindow(bytes: real, window: real, bytesPerToken: real) {
    window != 0.0 && bytesPerToken != 0.0 && bytes / bytesPerToken >= window * COMPACT_NEAR_WINDOW
  }

  /** What the next hop sends: the rest, the note the summary comes back in, and the tail. */
  function NextHop(loop: seq<Message>, size: Size, note: Message): real {
    size.fixed + LoopBytes([note] + Tail(loop, size)) as real
  }

  lemma NextHopIs(loop: seq<Message>, size: Size, note: Message)
    ensures NextHop(loop, size, note) ==
            size.fixed + MessageBytes(note) as real + LoopBytes(KeptHops(loop, size.TailBytes())) as real + LoopBytes(LinesAfter(loop)) as real
  {
    hide LoopBytes, TailStart, HopsEnd, MessageBytes;
    var kept, after := KeptHops(loop, size.TailBytes()), LinesAfter(loop);
    assert Tail(loop, size) == kept + after;
    SizesAdd([note], kept + after);
    SizesAdd(kept, after);
    OneLine(note);
    SumOfThree(MessageBytes(note), LoopBytes(kept), LoopBytes(after));
  }

  lemma SumOfThree(a: nat, b: nat, c: nat)
    ensures (a + (b + c)) as real == a as real + b as real + c as real
  {
  }

  lemma OneLine(m: Message)
    ensures LoopBytes([m]) == MessageBytes(m)
  {
    var one := [m];
    assert one[..0] == [] && Total(MessageBytes, one[..0]) == 0;
    assert one[|one| - 1] == m;
  }

  /**
   * Exactly when the hop after a compaction comes near the window again: when the rest, the note,
   * the hops kept and the lines after them reach three quarters of what the window is read at.
   */
  lemma NearAgainExactly(loop: seq<Message>, size: Size, note: Message, window: real, bytesPerToken: real)
    requires window > 0.0 && bytesPerToken > 0.0
    ensures NearWindow(NextHop(loop, size, note), window, bytesPerToken) <==>
            size.fixed + MessageBytes(note) as real + LoopBytes(KeptHops(loop, size.TailBytes())) as real + LoopBytes(LinesAfter(loop)) as real
            >= window * bytesPerToken * COMPACT_NEAR_WINDOW
  {
    hide LoopBytes, TailStart, HopsEnd, MessageBytes;
    NextHopIs(loop, size, note);
    PerToken(NextHop(loop, size, note), window * COMPACT_NEAR_WINDOW, bytesPerToken);
    Reordered(window, bytesPerToken, COMPACT_NEAR_WINDOW);
  }

  lemma Reordered(a: real, b: real, c: real)
    ensures a * c * b == a * b * c
  {
    assert a * c * b == a * (c * b) == a * (b * c);
  }

  /**
   * What the plan does promise, for a window the loop was read against and a note no longer than
   * expected: not near again when nothing was read out after the last hop, nor, with hops kept, when
   * what was read out is under a quarter of what the window is read at.
   */
  lemma NotNearAgain(loop: seq<Message>, window: real, bytesPerToken: real, fitBytes: real, fixed: real, note: Message)
    requires window > 0.0 && bytesPerToken > 0.0 && fitBytes <= window * bytesPerToken
    requires HasPlan(loop, Size(CapacityBytes(window, bytesPerToken, fitBytes), fixed, Some(bytesPerToken)))
    requires MessageBytes(note) as real <= COMPACT_SUMMARY_TOKENS * bytesPerToken
    ensures var size := Size(CapacityBytes(window, bytesPerToken, fitBytes), fixed, Some(bytesPerToken));
            var kept, after := LoopBytes(KeptHops(loop, size.TailBytes())), LoopBytes(LinesAfter(loop));
            after == 0 || (kept > 0 && after as real < window * bytesPerToken * 0.25) ==> !NearWindow(NextHop(loop, size, note), window, bytesPerToken)
  {
    hide LoopBytes, TailStart, HopsEnd, MessageBytes;
    var size := Size(CapacityBytes(window, bytesPerToken, fitBytes), fixed, Some(bytesPerToken));
    KeptFits(loop, size);
    NearAgainExactly(loop, size, note, window, bytesPerToken);
    assert size.capacity == window * bytesPerToken && MessageBytes(note) as real <= size.Summary();
    var kept, after := LoopBytes(KeptHops(loop, size.TailBytes())), LoopBytes(LinesAfter(loop));
    Below(fixed, size.Summary(), MessageBytes(note) as real, kept as real, after as real, window * bytesPerToken);
  }

  lemma Below(fixed: real, summary: real, note: real, kept: real, after: real, fits: real)
    requires note <= summary && fixed + summary + kept < fits * 0.75 && (kept > 0.0 ==> fixed + summary + kept <= fits * 0.5)
    ensures after == 0.0 || (kept > 0.0 && after < fits * 0.25) ==> fixed + note + kept + after < fits * 0.75
  {
  }

  lemma SignOf(x: real, scale: real)
    requires scale > 0.0
    ensures x * scale > 0.0 <==> x > 0.0
    ensures x * scale >= 0.0 <==> x >= 0.0
  {
  }

  lemma PerToken(bytes: real, tokens: real, bytesPerToken: real)
    requires bytesPerToken > 0.0
    ensures bytes / bytesPerToken >= tokens <==> bytes >= tokens * bytesPerToken
  {
    var over := bytes / bytesPerToken - tokens;
    assert over * bytesPerToken == bytes - tokens * bytesPerToken;
    SignOf(over, bytesPerToken);
  }

  // ---- Where it does come near again ----

  function Xs(n: nat): string {
    seq(n, _ => 'x')
  }

  lemma {:induction false} XsBytes(n: nat)
    ensures Utf8(Xs(n)) == n
    decreases n
  {
    if n > 0 {
      assert Xs(n)[..n - 1] == Xs(n - 1);
      XsBytes(n - 1);
    }
  }

  function SaidLine(n: nat): Message {
    Assistant(Plain(Xs(n)), [], None)
  }

  function HeardLine(n: nat): Message {
    User(Plain(Xs(n)))
  }

  /** A count of bytes that is at least `x`. */
  function Enough(x: real): (n: nat)
    ensures n as real > x && n >= COMPACT_MIN_BYTES
  {
    if x < COMPACT_MIN_BYTES as real then COMPACT_MIN_BYTES + 1 else x.Floor + 1
  }

  /** One long hop, and lines after it: the hop is summarized and the lines stay. */
  lemma LongHopGoes(hop: nat, lines: seq<Message>, size: Size)
    requires !size.AlreadyNear() && hop >= COMPACT_MIN_BYTES && hop as real > size.TailBytes()
    requires lines == [] || (|lines| == 1 && lines[0].User?)
    ensures HasPlan([SaidLine(hop)] + lines, size)
    ensures KeptHops([SaidLine(hop)] + lines, size.TailBytes()) == [] && LinesAfter([SaidLine(hop)] + lines) == lines
  {
    var loop := [SaidLine(hop)] + lines;
    if lines != [] { assert loop[..|loop| - 1] == [SaidLine(hop)]; }
    assert HopsEnd(loop) == 1;
    assert loop[0..1] == loop[..1] == [SaidLine(hop)];
    SaidBytes(hop);
    hide LoopBytes, HopsEnd;
    assert !FitsTail(loop, 0, 1, size.TailBytes());
    assert TailStart(loop, size.TailBytes()) == 1;
  }

  lemma SaidBytes(n: nat)
    ensures LoopBytes([SaidLine(n)]) == n && LoopBytes([HeardLine(n)]) == n && MessageBytes(HeardLine(n)) == n && LoopBytes([]) == 0
  {
    XsBytes(n);
    OneLine(SaidLine(n));
    OneLine(HeardLine(n));
    hide Utf8;
    assert MessageBytes(SaidLine(n)) == ContentBytes(Plain(Xs(n))) + Total(CallBytes, []);
  }

  /**
   * The lines that always stay are counted nowhere: for every window and rest that leave room for a
   * plan at all there is a loop that has one and whose next hop comes near all the same.
   */
  lemma LinesMayFillIt(window: real, bytesPerToken: real, size: Size, note: Message) returns (loop: seq<Message>)
    requires window > 0.0 && bytesPerToken > 0.0 && !size.AlreadyNear() && size.fixed >= 0.0
    ensures HasPlan(loop, size) && NearWindow(NextHop(loop, size, note), window, bytesPerToken)
  {
    var hop, heard := Enough(size.TailBytes()), Enough(window * bytesPerToken);
    var lines := [HeardLine(heard)];
    loop := [SaidLine(hop)] + lines;
    hide MessageBytes, NearWindow, LoopBytes, TailStart, HopsEnd;
    LongHopGoes(hop, lines, size);
    SaidBytes(heard);
    NearAgainExactly(loop, size, note, window, bytesPerToken);
    Positive(window, bytesPerToken);
  }

  lemma Positive(a: real, b: real)
    requires a > 0.0 && b > 0.0
    ensures a * b > 0.0
  {
  }

  /**
   * Where more than the window went through once there is, for every window and note not shorter
   * than expected, a rest and a compacted loop, nothing read out after it, whose next hop comes near.
   */
  lemma MayComeNearAgain(window: real, bytesPerToken: real, fitBytes: real, note: Message) returns (fixed: real, loop: seq<Message>)
    requires window > 0.0 && bytesPerToken > 0.0 && fitBytes > window * bytesPerToken
    requires COMPACT_SUMMARY_TOKENS * bytesPerToken < fitBytes * COMPACT_NEAR_WINDOW
    requires MessageBytes(note) as real >= COMPACT_SUMMARY_TOKENS * bytesPerToken
    ensures var size := Size(CapacityBytes(window, bytesPerToken, fitBytes), fixed, Some(bytesPerToken));
            && fixed >= 0.0 && HasPlan(loop, size) && LinesAfter(loop) == []
            && NearWindow(NextHop(loop, size, note), window, bytesPerToken)
  {
    hide MessageBytes, NearWindow;
    var near, summary := window * bytesPerToken * COMPACT_NEAR_WINDOW, COMPACT_SUMMARY_TOKENS * bytesPerToken;
    fixed := if near > summary then near - summary else 0.0;
    var size := Size(CapacityBytes(window, bytesPerToken, fitBytes), fixed, Some(bytesPerToken));
    var hop := Enough(size.TailBytes());
    loop := [SaidLine(hop)] + [];
    LongHopGoes(hop, [], size);
    SaidBytes(0);
    NearAgainExactly(loop, size, note, window, bytesPerToken);
  }

  // ---- The old part written out ----

  datatype EntryKind = Said | Called | Result | Note | Earlier

  datatype Entry = Entry(kind: EntryKind, heading: string, text: string)

  /** What a locale says: its labels, and its words for what is left out. */
  datatype Wording = Wording(
    said: string, call: string -> string, result: string -> string, note: string, earlier: string, picture: string,
    gap: nat -> string, omitted: nat -> string)

  function Join(texts: seq<string>, separator: string): string {
    if texts == [] then "" else if |texts| == 1 then texts[0] else texts[0] + separator + Join(texts[1..], separator)
  }

  function TextsOf(parts: seq<Part>, picture: string): seq<string> {
    seq(|parts|, i requires 0 <= i < |parts| => if parts[i].TextPart? then parts[i].text else picture)
  }

  /** `textOf` */
  function TextOf(content: Content, picture: string): string {
    match content
    case NoContent => ""
    case Plain(text) => text
    case Parts(parts) => Join(TextsOf(parts, picture), "\n")
  }

  /** The calls of the Bot's lines before `i`, in order; the earlier summary makes none. */
  function CallsBefore(old': seq<Message>, i: nat, earlier: Option<nat>): seq<Call>
    requires i <= |old'|
  {
    if i == 0 then []
    else if old'[i - 1].Assistant? && earlier != Some(i - 1) then CallsBefore(old', i - 1, earlier) + old'[i - 1].calls
    else CallsBefore(old', i - 1, earlier)
  }

  /** The name last called under an id. */
  function LastName(calls: seq<Call>, id: string): Option<string> {
    if calls == [] then None
    else if calls[|calls| - 1].id == id then Some(calls[|calls| - 1].name)
    else LastName(calls[..|calls| - 1], id)
  }

  function NameOr(name: Option<string>): string {
    if name.GetOr("") == "" then "tool" else name.value
  }

  function CallEntries(calls: seq<Call>, wording: Wording): seq<Entry> {
    seq(|calls|, i requires 0 <= i < |calls| => Entry(Called, wording.call(calls[i].name), calls[i].arguments))
  }

  /** The entries of one line, told from the lines before it. */
  function EntriesOfLine(old': seq<Message>, i: nat, earlier: Option<nat>, wording: Wording): seq<Entry>
    requires i < |old'|
  {
    var text := TextOf(old'[i].content, wording.picture);
    if earlier == Some(i) then [Entry(Earlier, wording.earlier, text)]
    else
      match old'[i]
      case Assistant(_, calls, _) => (if IsBlankText(text) then [] else [Entry(Said, wording.said, text)]) + CallEntries(calls, wording)
      case Tool(_, id) =>
        var name := if id == "" then "tool" else NameOr(LastName(CallsBefore(old', i, earlier), id));
        [Entry(Result, wording.result(name), text)]
      case _ => [Entry(Note, wording.note, text)]
  }

  function Entries(old': seq<Message>, n: nat, earlier: Option<nat>, wording: Wording): seq<Entry>
    requires n <= |old'|
  {
    if n == 0 then [] else Entries(old', n - 1, earlier, wording) + EntriesOfLine(old', n - 1, earlier, wording)
  }

  ghost predicate NamesOf(names: map<string, string>, calls: seq<Call>) {
    forall id :: if id in names then LastName(calls, id) == Some(names[id]) else LastName(calls, id).None?
  }

  lemma NameAdded(names: map<string, string>, calls: seq<Call>, call: Call)
    requires NamesOf(names, calls)
    ensures NamesOf(names[call.id := call.name], calls + [call])
  {
    assert (calls + [call])[..|calls|] == calls;
  }

  lemma OneMore<T>(front: seq<T>, s: seq<T>, i: nat)
    requires i < |s|
    ensures front + s[..i] + [s[i]] == front + s[..i + 1]
  {
  }

  /** `entriesOf`: the map of names stands for a look back through the calls. */
  method EntriesOf(old': seq<Message>, earlier: Option<nat>, wording: Wording) returns (out: seq<Entry>)
    ensures out == Entries(old', |old'|, earlier, wording)
  {
    hide NamesOf, EntriesOfLine;
    var names: map<string, string> := map[];
    out := [];
    NoNames();
    for i := 0 to |old'|
      invariant out == Entries(old', i, earlier, wording)
      invariant NamesOf(names, CallsBefore(old', i, earlier))
    {
      var line;
      names, line := NoteLine(old', i, earlier, wording, names);
      out := out + line;
    }
  }

  method NoteLine(old': seq<Message>, i: nat, earlier: Option<nat>, wording: Wording, names: map<string, string>)
    returns (names': map<string, string>, line: seq<Entry>)
    requires i < |old'| && NamesOf(names, CallsBefore(old', i, earlier))
    ensures NamesOf(names', CallsBefore(old', i + 1, earlier)) && line == EntriesOfLine(old', i, earlier, wording)
  {
    hide LastName, TextOf, IsBlankText, NamesOf;
    var message := old'[i];
    var text := TextOf(message.content, wording.picture);
    names' := names;
    if earlier == Some(i) {
      line := [Entry(Earlier, wording.earlier, text)];
    } else if message.Assistant? {
      line := if IsBlankText(text) then [] else [Entry(Said, wording.said, text)];
      names', line := NoteCalls(message.calls, wording, names, line, CallsBefore(old', i, earlier));
    } else if message.Tool? {
      var name := "tool";
      if message.callId != "" && message.callId in names && names[message.callId] != "" { name := names[message.callId]; }
      NameLookedUp(names, CallsBefore(old', i, earlier), message.callId);
      line := [Entry(Result, wording.result(name), text)];
    } else {
      line := [Entry(Note, wording.note, text)];
    }
  }

  lemma NoNames()
    ensures NamesOf(map[], [])
  {
  }

  lemma NameLookedUp(names: map<string, string>, calls: seq<Call>, id: string)
    requires NamesOf(names, calls)
    ensures NameOr(LastName(calls, id)) == if id in names && names[id] != "" then names[id] else "tool"
  {
  }

  method NoteCalls(calls: seq<Call>, wording: Wording, names: map<string, string>, out: seq<Entry>, ghost before: seq<Call>)
    returns (names': map<string, string>, out': seq<Entry>)
    requires NamesOf(names, before)
    ensures NamesOf(names', before + calls) && out' == out + CallEntries(calls, wording)
  {
    hide NamesOf;
    names', out' := names, out;
    assert before + calls[..0] == before;
    for j := 0 to |calls|
      invariant NamesOf(names', before + calls[..j])
      invariant out' == out + CallEntries(calls, wording)[..j]
    {
      NameAdded(names', before + calls[..j], calls[j]);
      OneMore(before, calls, j);
      OneMore(out, CallEntries(calls, wording), j);
      names' := names'[calls[j].id := calls[j].name];
      out' := out' + [Entry(Called, wording.call(calls[j].name), calls[j].arguments)];
    }
    assert calls[..|calls|] == calls;
    assert CallEntries(calls, wording)[..|calls|] == CallEntries(calls, wording);
  }

  /** `clipped`: past `limit` code points the middle of a text gives way to a word on how much it was. */
  function Clipped(text: string, limit: nat, wording: Wording): string {
    if |text| <= limit then text
    else
      var head := (limit * 2 + 2) / 3;
      var tail := limit - head;
      text[..head] + wording.gap(|text| - limit) + if tail > 0 then text[|text| - tail..] else ""
  }

  /** What is cut is one stretch, its length said; two thirds of what is kept is from the start. */
  lemma ClippedKeeps(text: string, limit: nat, wording: Wording) returns (head: string, cut: string, tail: string)
    requires |text| > limit
    ensures text == head + cut + tail && Clipped(text, limit, wording) == head + wording.gap(|cut|) + tail
    ensures |head| + |tail| == limit && 2 * |tail| <= |head| <= 2 * |tail| + 2
  {
    var n := (limit * 2 + 2) / 3;
    head, cut, tail := text[..n], text[n..|text| - (limit - n)], text[|text| - (limit - n)..];
  }

  datatype Tier = Tier(said: nat, call: nat, result: nat, note: nat)

  const CLIP_TIERS: seq<Tier> := [
    Tier(6_000, 2_000, 8_000, 3_000), Tier(3_000, 800, 2_000, 1_500), Tier(1_500, 300, 600, 800), Tier(600, 120, 200, 400)]
  const EARLIER_SUMMARY_MAX: nat := 24_000

  function RenderOne(entry: Entry, tier: Tier, wording: Wording): string {
    var limit :=
      match entry.kind
      case Earlier => EARLIER_SUMMARY_MAX
      case Said => tier.said
      case Called => tier.call
      case Result => tier.result
      case Note => tier.note;
    "\U{3010}" + entry.heading + "\U{3011}\n" + Clipped(entry.text, limit, wording)
  }

  /** `render` */
  function Render(entries: seq<Entry>, tier: Tier, wording: Wording): (texts: seq<string>)
    ensures |texts| == |entries|
  {
    seq(|entries|, i requires 0 <= i < |entries| => RenderOne(entries[i], tier, wording))
  }

  /** All entries at a tier. */
  function Whole(entries: seq<Entry>, t: nat, wording: Wording): string
    requires t < |CLIP_TIERS|
  {
    Join(Render(entries, CLIP_TIERS[t], wording), "\n\n")
  }

  function KeepFirst(entries: seq<Entry>): nat {
    if entries != [] && entries[0].kind == Earlier then 1 else 0
  }

  /** The first `keepFirst` entries, a line on how many are left out, and those from `from` on. */
  function Kept(texts: seq<string>, keepFirst: nat, from: nat, wording: Wording): string
    requires keepFirst <= from <= |texts|
  {
    Join(texts[..keepFirst] + (if from > keepFirst then [wording.omitted(from - keepFirst)] else []) + texts[from..], "\n\n")
  }

  /**
   * `writeOutLoop`. The record is written at the loosest tier at which all of it fits. When none
   * does, the fewest of the oldest entries are left out that make the rest fit, an earlier summary
   * never among them; it is over the budget only when the last entry alone is left beside that.
   */
  method WriteOutLoop(old': seq<Message>, budget: int, wording: Wording, earlier: Option<nat>) returns (record: string, ghost tier: nat, ghost from: nat)
    ensures var entries := Entries(old', |old'|, earlier, wording);
            && tier <= |CLIP_TIERS| && (forall t :: 0 <= t < tier ==> Utf8(Whole(entries, t, wording)) > budget)
            && (tier < |CLIP_TIERS| ==> record == Whole(entries, tier, wording) && Utf8(record) <= budget)
            && (tier == |CLIP_TIERS| ==>
                  var texts, first := Render(entries, CLIP_TIERS[|CLIP_TIERS| - 1], wording), KeepFirst(entries);
                  && first <= from <= |texts| && record == Kept(texts, first, from, wording)
                  && (Utf8(record) <= budget || from + 1 >= |texts|)
                  && (forall k :: first <= k < from ==> k + 1 < |texts| && Utf8(Kept(texts, first, k, wording)) > budget))
    ensures var entries := Entries(old', |old'|, earlier, wording);
            var texts, first := Render(entries, CLIP_TIERS[|CLIP_TIERS| - 1], wording), KeepFirst(entries);
            Utf8(record) > budget ==> record == Kept(texts, first, if first + 1 < |texts| then |texts| - 1 else first, wording)
  {
    hide Utf8, Render, Join, Kept, Entries;
    tier, from := 0, 0;
    var entries := EntriesOf(old', earlier, wording);
    for t := 0 to |CLIP_TIERS|
      invariant tier == t
      invariant forall u :: 0 <= u < t ==> Utf8(Whole(entries, u, wording)) > budget
    {
      var text := Join(Render(entries, CLIP_TIERS[t], wording), "\n\n");
      if Utf8(text) <= budget { return text, t, 0; }
      tier := t + 1;
    }
    var tightest := Render(entries, CLIP_TIERS[|CLIP_TIERS| - 1], wording);
    var keepFirst := KeepFirst(entries);
    var at := keepFirst;
    while at < |tightest| - 1 && Utf8(Kept(tightest, keepFirst, at, wording)) > budget
      invariant keepFirst <= at <= |tightest|
      invariant forall k :: keepFirst <= k < at ==> k + 1 < |tightest| && Utf8(Kept(tightest, keepFirst, k, wording)) > budget
    {
      at := at + 1;
    }
    record, from := Kept(tightest, keepFirst, at, wording), at;
  }

  /** A result is written under the name of the call it answers, wherever in the old part that was. */
  lemma ResultIsNamed(old': seq<Message>, a: nat, k: nat, c: nat, earlier: Option<nat>, wording: Wording)
    requires Calls(old', a, k) && earlier != Some(a) && earlier != Some(k)
    requires c < |old'[a].calls| && old'[a].calls[c].id == old'[k].callId != "" && old'[a].calls[c].name != ""
    requires forall d :: c < d < |old'[a].calls| ==> old'[a].calls[d].id != old'[k].callId
    ensures EntriesOfLine(old', k, earlier, wording) ==
            [Entry(Result, wording.result(old'[a].calls[c].name), TextOf(old'[k].content, wording.picture))]
  {
    hide TextOf, IsBlankText;
    NoCallsBetween(old', a + 1, k, earlier);
    LastNameIn(CallsBefore(old', a, earlier), old'[a].calls, c);
  }

  lemma {:induction false} NoCallsBetween(old': seq<Message>, i: nat, k: nat, earlier: Option<nat>)
    requires i <= k <= |old'| && forall j :: i <= j < k ==> !old'[j].Assistant?
    ensures CallsBefore(old', k, earlier) == CallsBefore(old', i, earlier)
    decreases k
  {
    if i < k { NoCallsBetween(old', i, k - 1, earlier); }
  }

  lemma {:induction false} LastNameIn(before: seq<Call>, calls: seq<Call>, c: nat)
    requires c < |calls| && forall d :: c < d < |calls| ==> calls[d].id != calls[c].id
    ensures LastName(before + calls, calls[c].id) == Some(calls[c].name)
    decreases |calls|
  {
    var all := before + calls;
    assert all[|all| - 1] == calls[|calls| - 1];
    if c < |calls| - 1 {
      assert all[..|all| - 1] == before + calls[..|calls| - 1];
      LastNameIn(before, calls[..|calls| - 1], c);
    }
  }
}
