/**
 * Reading a Messages stream event by event, and what the reader of its steps has in the end: the
 * reply that was streamed, however its blocks were cut into pieces.
 */
module MessageStream {
  import opened Wrappers
  import opened Lists

  datatype Kind = TextKind | ToolUseKind | ThinkingKind | RedactedKind | OtherKind

  /** A content block as it comes; `input` is the JSON text of a call's input, `other` all the rest. */
  datatype Block = Block(
    kind: Kind, text: Option<string>, id: string, name: string, input: Option<string>,
    thinking: Option<string>, signature: Option<string>, other: string)

  /** A block kept while it streams: the number of its call, and whether arguments came in pieces. */
  datatype Kept = Kept(block: Block, tool: Option<nat>, gotJson: bool)

  datatype Delta = TextDelta(text: string) | JsonDelta(json: string) | ThinkingDelta(thinking: string) | SignatureDelta(signature: string) | OtherDelta

  datatype Usage = Usage(input: Option<int>, written: Option<int>, read: Option<int>, output: Option<int>)

  datatype Mapped = Mapped(input: Option<int>, output: Option<int>, total: Option<int>, cached: Option<int>)

  datatype Event =
    | MessageStart(usage: Option<Usage>)
    | BlockStart(at: Option<int>, block: Block)
    | BlockDelta(at: Option<int>, delta: Delta)
    | BlockStop(at: Option<int>)
    | MessageDelta(reason: string, usage: Option<Usage>)
    | MessageStop
    | ErrorEvent(kind: string)
    | OtherEvent

  datatype CallDelta = CallDelta(index: nat, id: Option<string>, name: Option<string>, arguments: Option<string>)

  datatype Error = Busy | EndpointError

  datatype Step = Step(
    started: bool, text: string, calls: seq<CallDelta>, finish: Option<string>, usage: Option<Mapped>, done: bool, error: Option<Error>)

  const NOTHING: Step := Step(false, "", [], None, None, false, None)

  datatype State = State(usage: Usage, blocks: map<int, Kept>, tools: nat, thinking: seq<Block>)

  function Or<T>(a: Option<T>, b: Option<T>): Option<T> {
    if a.Some? then a else b
  }

  function Merged(old': Usage, more: Usage): Usage {
    Usage(Or(more.input, old'.input), Or(more.written, old'.written), Or(more.read, old'.read), Or(more.output, old'.output))
  }

  /** `mapAnthropicUsage`: what was read from the cache and written to it is input too. */
  function MapUsage(u: Usage): Option<Mapped> {
    if u.input.None? && u.written.None? && u.read.None? && u.output.None? then None
    else
      var input := if u.input.None? && u.written.None? && u.read.None? then None else Some(u.input.GetOr(0) + u.written.GetOr(0) + u.read.GetOr(0));
      Some(Mapped(input, u.output, if input.Some? && u.output.Some? then Some(input.value + u.output.value) else None, u.read))
  }

  function Lower(s: string): string {
    if s == "" then "" else [if 'A' <= s[0] <= 'Z' then (s[0] as int + 32) as char else s[0]] + Lower(s[1..])
  }

  /** `anthropicFinish`; only ASCII letters change case here. */
  function Finish(reason: string): string {
    var lower := Lower(reason);
    if lower == "end_turn" || lower == "stop_sequence" then "stop"
    else if lower == "tool_use" then "tool_calls"
    else if lower == "max_tokens" then "length"
    else if lower == "model_context_window_exceeded" then "context_window"
    else lower
  }

  function TakeUsage(s: State, step: Step, raw: Option<Usage>): (State, Step) {
    match raw
    case None => (s, step)
    case Some(usage) =>
      var merged := Merged(s.usage, usage);
      (s.(usage := merged), step.(usage := MapUsage(merged)))
  }

  function Started(s: State, at: Option<int>, block: Block): (State, Step) {
    var index := at.GetOr(|s.blocks|);
    if block.kind.ToolUseKind? then
      (s.(blocks := s.blocks[index := Kept(block, Some(s.tools), false)], tools := s.tools + 1),
       NOTHING.(started := true, calls := [CallDelta(s.tools, Some(block.id), Some(block.name), Some(""))]))
    else
      (s.(blocks := s.blocks[index := Kept(block, None, false)]),
       NOTHING.(started := true, text := if block.kind.TextKind? then block.text.GetOr("") else ""))
  }

  function Delivered(s: State, at: Option<int>, delta: Delta): (State, Step) {
    var index := at.GetOr(-1);
    match delta
    case TextDelta(text) => (s, NOTHING.(text := text))
    case JsonDelta(json) =>
      if index in s.blocks && s.blocks[index].tool.Some? then
        (s.(blocks := s.blocks[index := s.blocks[index].(gotJson := true)]),
         NOTHING.(calls := [CallDelta(s.blocks[index].tool.value, None, None, Some(json))]))
      else (s, NOTHING)
    case ThinkingDelta(thinking) =>
      if index in s.blocks then
        var kept := s.blocks[index];
        (s.(blocks := s.blocks[index := kept.(block := kept.block.(thinking := Some(kept.block.thinking.GetOr("") + thinking)))]), NOTHING)
      else (s, NOTHING)
    case SignatureDelta(signature) =>
      if index in s.blocks then
        var kept := s.blocks[index];
        (s.(blocks := s.blocks[index := kept.(block := kept.block.(signature := Some(kept.block.signature.GetOr("") + signature)))]), NOTHING)
      else (s, NOTHING)
    case OtherDelta => (s, NOTHING)
  }

  function Stopped(s: State, at: Option<int>): (State, Step) {
    var index := at.GetOr(-1);
    if index !in s.blocks then (s, NOTHING)
    else
      var Kept(block, tool, gotJson) := s.blocks[index];
      var s' := if block.kind.ThinkingKind? || block.kind.RedactedKind? then s.(thinking := s.thinking + [block]) else s;
      if tool.Some? && !gotJson then (s', NOTHING.(calls := [CallDelta(tool.value, None, None, Some(block.input.GetOr("{}")))]))
      else (s', NOTHING)
  }

  function ErrorOf(kind: string): Error {
    if kind == "overloaded_error" || kind == "rate_limit_error" then Busy else EndpointError
  }

  function Fed(s: State, event: Event): (State, Step) {
    match event
    case MessageStart(usage) => TakeUsage(s, NOTHING.(started := true), usage)
    case BlockStart(at, block) => Started(s, at, block)
    case BlockDelta(at, delta) => Delivered(s, at, delta)
    case BlockStop(at) => Stopped(s, at)
    case MessageDelta(reason, usage) => TakeUsage(s, NOTHING.(finish := if reason == "" then None else Some(Finish(reason))), usage)
    case MessageStop => (s, NOTHING.(done := true))
    case ErrorEvent(kind) => (s, NOTHING.(error := Some(ErrorOf(kind))))
    case OtherEvent => (s, NOTHING)
  }

  class AnthropicStream {
    var usage: Usage
    var blocks: map<int, Kept>
    var tools: nat
    var thinking: seq<Block>

    ghost function Value(): State
      reads this
    {
      State(usage, blocks, tools, thinking)
    }

    constructor ()
      ensures Value() == FRESH
    {
      usage, blocks, tools, thinking := Usage(None, None, None, None), map[], 0, [];
    }

    /** `feed` */
    method Feed(event: Event) returns (step: Step)
      modifies this
      ensures (Value(), step) == Fed(old(Value()), event)
    {
      step := NOTHING;
      match event
      case MessageStart(raw) =>
        step := step.(started := true);
        step := Take(raw, step);
      case BlockStart(at, block) =>
        var index := at.GetOr(|blocks|);
        step := step.(started := true);
        if block.kind.ToolUseKind? {
          blocks := blocks[index := Kept(block, Some(tools), false)];
          step := step.(calls := [CallDelta(tools, Some(block.id), Some(block.name), Some(""))]);
          tools := tools + 1;
        } else {
          blocks := blocks[index := Kept(block, None, false)];
          if block.kind.TextKind? { step := step.(text := block.text.GetOr("")); }
        }
      case BlockDelta(at, delta) => step := Deliver(at.GetOr(-1), delta);
      case BlockStop(at) =>
        var index := at.GetOr(-1);
        if index in blocks {
          var kept := blocks[index];
          if kept.block.kind.ThinkingKind? || kept.block.kind.RedactedKind? { thinking := thinking + [kept.block]; }
          if kept.tool.Some? && !kept.gotJson {
            step := step.(calls := [CallDelta(kept.tool.value, None, None, Some(kept.block.input.GetOr("{}")))]);
          }
        }
      case MessageDelta(reason, raw) =>
        if reason != "" { step := step.(finish := Some(Finish(reason))); }
        step := Take(raw, step);
      case MessageStop => step := step.(done := true);
      case ErrorEvent(kind) => step := step.(error := Some(if kind == "overloaded_error" || kind == "rate_limit_error" then Busy else EndpointError));
      case OtherEvent =>
    }

    method Deliver(index: int, delta: Delta) returns (step: Step)
      modifies this`blocks
      ensures (Value(), step) == Delivered(old(Value()), Some(index), delta)
    {
      step := NOTHING;
      match delta
      case TextDelta(text) => step := step.(text := text);
      case JsonDelta(json) =>
        if index in blocks && blocks[index].tool.Some? {
          step := step.(calls := [CallDelta(blocks[index].tool.value, None, None, Some(json))]);
          blocks := blocks[index := blocks[index].(gotJson := true)];
        }
      case ThinkingDelta(more) =>
        if index in blocks {
          var kept := blocks[index];
          blocks := blocks[index := kept.(block := kept.block.(thinking := Some(kept.block.thinking.GetOr("") + more)))];
        }
      case SignatureDelta(more) =>
        if index in blocks {
          var kept := blocks[index];
          blocks := blocks[index := kept.(block := kept.block.(signature := Some(kept.block.signature.GetOr("") + more)))];
        }
      case OtherDelta =>
    }

    /** `takeUsage` */
    method Take(raw: Option<Usage>, step: Step) returns (step': Step)
      modifies this`usage
      ensures (Value(), step') == TakeUsage(old(Value()), step, raw)
    {
      if raw.None? { return step; }
      usage := Merged(usage, raw.value);
      step' := step.(usage := MapUsage(usage));
    }
  }

  const FRESH: State := State(Usage(None, None, None, None), map[], 0, [])

  // ---- The reader of the steps ----

  datatype Made = Made(id: string, name: string, arguments: string)

  /** What the reader has put together. */
  datatype Heard = Heard(content: string, tools: map<nat, Made>, usage: Option<Mapped>)

  function Nonempty(new': Option<string>, old': string): string {
    if new'.GetOr("") == "" then old' else new'.value
  }

  /** `mergeToolDeltas`, one of them. */
  function MergeOne(tools: map<nat, Made>, delta: CallDelta): map<nat, Made> {
    var current := if delta.index in tools then tools[delta.index] else Made("", "", "");
    tools[delta.index := Made(Nonempty(delta.id, current.id), Nonempty(delta.name, current.name), current.arguments + delta.arguments.GetOr(""))]
  }

  function Hear(h: Heard, step: Step): Heard {
    Heard(h.content + step.text, if step.calls == [] then h.tools else MergeOne(h.tools, step.calls[0]), Or(step.usage, h.usage))
  }

  function FeedOne(at: (State, Heard), event: Event): (State, Heard) {
    (Fed(at.0, event).0, Hear(at.1, Fed(at.0, event).1))
  }

  /** The stream and its reader after these events. */
  function FeedAll(at: (State, Heard), events: seq<Event>): (State, Heard) {
    if events == [] then at else FeedOne(FeedAll(at, events[..|events| - 1]), events[|events| - 1])
  }

  lemma {:induction false} FeedConcat(at: (State, Heard), a: seq<Event>, b: seq<Event>)
    ensures FeedAll(at, a + b) == FeedAll(FeedAll(at, a), b)
    decreases |b|
  {
    if b == [] {
      assert a + b == a;
    } else {
      assert (a + b)[..|a + b| - 1] == a + b[..|b| - 1];
      FeedConcat(at, a, b[..|b| - 1]);
    }
  }

  /** The usage an event brings, if it brings any. */
  function PartOf(event: Event): Option<Usage> {
    match event
    case MessageStart(usage) => usage
    case MessageDelta(_, usage) => usage
    case _ => None
  }

  /** What the events last said of one of the counts. */
  function LastGiven(count: Usage -> Option<int>, events: seq<Event>): Option<int> {
    if events == [] then None
    else
      var part := PartOf(events[|events| - 1]);
      if part.Some? && count(part.value).Some? then count(part.value) else LastGiven(count, events[..|events| - 1])
  }

  function InputOf(u: Usage): Option<int> { u.input }

  function WrittenOf(u: Usage): Option<int> { u.written }

  function ReadOf(u: Usage): Option<int> { u.read }

  function OutputOf(u: Usage): Option<int> { u.output }

  /** All that the events said of the usage. */
  function UsageOf(events: seq<Event>): Usage {
    Usage(LastGiven(InputOf, events), LastGiven(WrittenOf, events), LastGiven(ReadOf, events), LastGiven(OutputOf, events))
  }

  const BEGINNING: (State, Heard) := (FRESH, Heard("", map[], None))

  /** However the usage came in parts, the reader has all of it: each count as it was last given. */
  lemma {:induction false} UsageIsWhole(events: seq<Event>)
    ensures var at := FeedAll(BEGINNING, events);
            at.0.usage == UsageOf(events) && at.1.usage == MapUsage(UsageOf(events))
  {
    if events != [] {
      UsageIsWhole(events[..|events| - 1]);
      UsageStep(FeedAll(BEGINNING, events[..|events| - 1]), events[|events| - 1]);
      assert PartOf(events[|events| - 1]).None? ==> UsageOf(events) == UsageOf(events[..|events| - 1]);
    }
  }

  lemma UsageStep(at: (State, Heard), event: Event)
    requires at.1.usage == MapUsage(at.0.usage)
    ensures FeedOne(at, event).0.usage == match PartOf(event) case None => at.0.usage case Some(part) => Merged(at.0.usage, part)
    ensures FeedOne(at, event).1.usage == MapUsage(FeedOne(at, event).0.usage)
  {
    hide MergeOne, Finish;
  }

  /** The tool calls that begin among the events, in order. */
  function CallsBegun(events: seq<Event>): seq<Block> {
    if events == [] then []
    else
      var last := events[|events| - 1];
      CallsBegun(events[..|events| - 1]) + if last.BlockStart? && last.block.kind.ToolUseKind? then [last.block] else []
  }

  /** The calls heard of are these, each under its place among them and with its id and name. */
  ghost predicate Numbered(at: (State, Heard), calls: seq<Block>) {
    && at.0.tools == |calls|
    && (forall n: nat :: n in at.1.tools <==> n < |calls|)
    && (forall n: nat :: n < |calls| ==> at.1.tools[n].id == calls[n].id && at.1.tools[n].name == calls[n].name)
    && (forall k :: k in at.0.blocks && at.0.blocks[k].tool.Some? ==> at.0.blocks[k].tool.value < at.0.tools)
  }

  /**
   * Whatever events come, malformed ones included: the n-th call that begins is the n-th heard of,
   * with its id and its name, and there are no others.
   */
  lemma {:induction false} CallsNumbered(events: seq<Event>)
    ensures Numbered(FeedAll(BEGINNING, events), CallsBegun(events))
  {
    if events == [] {
      NothingBegun();
    } else {
      var front, last := events[..|events| - 1], events[|events| - 1];
      CallsNumbered(front);
      hide Numbered, FeedOne;
      NumberedStep(FeedAll(BEGINNING, front), last, CallsBegun(front));
      assert CallsBegun(front) + [] == CallsBegun(front);
    }
  }

  lemma NothingBegun()
    ensures Numbered(BEGINNING, [])
  {
  }

  lemma NumberedStep(at: (State, Heard), event: Event, calls: seq<Block>)
    requires Numbered(at, calls)
    ensures Numbered(FeedOne(at, event), if event.BlockStart? && event.block.kind.ToolUseKind? then calls + [event.block] else calls)
  {
    hide Finish, MapUsage, Merged;
  }

  // ---- A reply streamed ----

  /** A block of a reply, with the pieces its content is cut into. */
  datatype Whole =
    | WholeText(begun: string, pieces: seq<string>)
    | WholeCall(id: string, name: string, input: Option<string>, pieces: seq<string>)
    | WholeThought(begun: string, pieces: seq<string>, signatures: seq<string>)
    | WholeRedacted(data: string)

  function FirstOf(whole: Whole): Block {
    match whole
    case WholeText(begun, _) => Block(TextKind, Some(begun), "", "", None, None, None, "")
    case WholeCall(id, name, input, _) => Block(ToolUseKind, None, id, name, input, None, None, "")
    case WholeThought(begun, _, _) => Block(ThinkingKind, None, "", "", None, Some(begun), None, "")
    case WholeRedacted(data) => Block(RedactedKind, None, "", "", None, None, None, data)
  }

  function AsText(piece: string): Delta { TextDelta(piece) }

  function AsJson(piece: string): Delta { JsonDelta(piece) }

  function AsThinking(piece: string): Delta { ThinkingDelta(piece) }

  function AsSignature(piece: string): Delta { SignatureDelta(piece) }

  function Deltas(index: int, make: string -> Delta, pieces: seq<string>): seq<Event> {
    seq(|pieces|, i requires 0 <= i < |pieces| => BlockDelta(Some(index), make(pieces[i])))
  }

  function PieceEvents(index: int, whole: Whole): seq<Event> {
    match whole
    case WholeText(_, pieces) => Deltas(index, AsText, pieces)
    case WholeCall(_, _, _, pieces) => Deltas(index, AsJson, pieces)
    case WholeThought(_, pieces, signatures) => Deltas(index, AsThinking, pieces) + Deltas(index, AsSignature, signatures)
    case WholeRedacted(_) => []
  }

  function BlockEvents(index: int, whole: Whole): seq<Event> {
    [BlockStart(Some(index), FirstOf(whole))] + PieceEvents(index, whole) + [BlockStop(Some(index))]
  }

  /** The events of a reply's blocks, one block after the other. */
  function ReplyEvents(reply: seq<Whole>): seq<Event> {
    if reply == [] then [] else ReplyEvents(reply[..|reply| - 1]) + BlockEvents(|reply| - 1, reply[|reply| - 1])
  }

  // What the reply says, read off its blocks.

  function TextsOf(reply: seq<Whole>): string {
    if reply == [] then ""
    else
      var last := reply[|reply| - 1];
      TextsOf(reply[..|reply| - 1]) + if last.WholeText? then last.begun + Joined(last.pieces) else ""
  }

  function CallsOf(reply: seq<Whole>): seq<Made> {
    if reply == [] then []
    else
      var last := reply[|reply| - 1];
      CallsOf(reply[..|reply| - 1])
      + if last.WholeCall? then [Made(last.id, last.name, if last.pieces == [] then last.input.GetOr("{}") else Joined(last.pieces))] else []
  }

  function ThoughtsOf(reply: seq<Whole>): seq<Block> {
    if reply == [] then []
    else
      var last := reply[|reply| - 1];
      ThoughtsOf(reply[..|reply| - 1])
      + match last
        case WholeThought(begun, pieces, signatures) =>
          [FirstOf(last).(thinking := Some(begun + Joined(pieces)), signature := if signatures == [] then None else Some(Joined(signatures)))]
        case WholeRedacted(_) => [FirstOf(last)]
        case _ => []
  }

  ghost predicate HeardIs(at: (State, Heard), reply: seq<Whole>) {
    && at.1.content == TextsOf(reply)
    && at.0.thinking == ThoughtsOf(reply)
    && at.0.tools == |CallsOf(reply)|
    && (forall n: nat :: n in at.1.tools <==> n < |CallsOf(reply)|)
    && (forall n :: 0 <= n < |CallsOf(reply)| ==> at.1.tools[n] == CallsOf(reply)[n])
  }

  lemma FeedLast(at: (State, Heard), events: seq<Event>, event: Event)
    ensures FeedAll(at, events + [event]) == FeedOne(FeedAll(at, events), event)
  {
    assert (events + [event])[..|events + [event]| - 1] == events;
  }

  /** One piece more, and none at all. */
  lemma PiecesLast(at: (State, Heard), index: int, make: string -> Delta, pieces: seq<string>)
    requires pieces != []
    ensures var front, last := pieces[..|pieces| - 1], pieces[|pieces| - 1];
            && FeedAll(at, Deltas(index, make, pieces)) == FeedOne(FeedAll(at, Deltas(index, make, front)), BlockDelta(Some(index), make(last)))
            && Joined(pieces) == Joined(front) + last
  {
    var front, last := pieces[..|pieces| - 1], pieces[|pieces| - 1];
    assert Deltas(index, make, pieces) == Deltas(index, make, front) + [BlockDelta(Some(index), make(last))];
    FeedLast(at, Deltas(index, make, front), BlockDelta(Some(index), make(last)));
  }

  lemma PiecesNone(at: (State, Heard), index: int, make: string -> Delta)
    ensures FeedAll(at, Deltas(index, make, [])) == at && Joined<char>([]) == []
  {
  }

  lemma NoMore(s: string)
    ensures s + "" == s && "" + s == s
  {
  }

  lemma MoreAndMore(a: string, b: string, c: string)
    ensures a + b + c == a + (b + c)
  {
  }

  lemma {:induction false} TextPieces(at: (State, Heard), index: int, pieces: seq<string>)
    ensures FeedAll(at, Deltas(index, AsText, pieces)) == (at.0, at.1.(content := at.1.content + Joined(pieces)))
    decreases |pieces|
  {
    hide FeedAll, Joined, Deltas;
    if pieces == [] {
      PiecesNone(at, index, AsText);
      NoMore(at.1.content);
    } else {
      var front, last := pieces[..|pieces| - 1], pieces[|pieces| - 1];
      TextPieces(at, index, front);
      PiecesLast(at, index, AsText, pieces);
      MoreAndMore(at.1.content, Joined(front), last);
    }
  }

  /** The arguments of a call, piece by piece. */
  lemma {:induction false} JsonPieces(at: (State, Heard), index: int, n: nat, pieces: seq<string>)
    requires index in at.0.blocks && at.0.blocks[index].tool == Some(n) && n in at.1.tools
    ensures var after := FeedAll(at, Deltas(index, AsJson, pieces));
            && after.0 == at.0.(blocks := at.0.blocks[index := at.0.blocks[index].(gotJson := at.0.blocks[index].gotJson || pieces != [])])
            && after.1 == at.1.(tools := at.1.tools[n := at.1.tools[n].(arguments := at.1.tools[n].arguments + Joined(pieces))])
    decreases |pieces|
  {
    hide FeedAll, FeedOne, Joined, Deltas;
    if pieces == [] {
      PiecesNone(at, index, AsJson);
      NoMore(at.1.tools[n].arguments);
      assert at.1.tools[n := at.1.tools[n]] == at.1.tools;
      assert at.0.blocks[index := at.0.blocks[index]] == at.0.blocks;
    } else {
      var front, last := pieces[..|pieces| - 1], pieces[|pieces| - 1];
      JsonPieces(at, index, n, front);
      PiecesLast(at, index, AsJson, pieces);
      OneJson(FeedAll(at, Deltas(index, AsJson, front)), index, n, last);
      MoreAndMore(at.1.tools[n].arguments, Joined(front), last);
    }
  }

  lemma OneJson(at: (State, Heard), index: int, n: nat, piece: string)
    requires index in at.0.blocks && at.0.blocks[index].tool == Some(n) && n in at.1.tools
    ensures FeedOne(at, BlockDelta(Some(index), AsJson(piece))) ==
            (at.0.(blocks := at.0.blocks[index := at.0.blocks[index].(gotJson := true)]),
             at.1.(tools := at.1.tools[n := at.1.tools[n].(arguments := at.1.tools[n].arguments + piece)]))
  {
    NoMore(at.1.content);
  }

  function WithThinking(kept: Kept, thinking: Option<string>, signature: Option<string>): Kept {
    kept.(block := kept.block.(thinking := thinking, signature := signature))
  }

  function Longer(begun: Option<string>, pieces: seq<string>): Option<string> {
    if pieces == [] then begun else Some(begun.GetOr("") + Joined(pieces))
  }

  lemma LongerByOne(begun: Option<string>, pieces: seq<string>)
    requires pieces != []
    ensures Longer(begun, pieces) == Some(Longer(begun, pieces[..|pieces| - 1]).GetOr("") + pieces[|pieces| - 1])
  {
    var front, last := pieces[..|pieces| - 1], pieces[|pieces| - 1];
    assert Joined(pieces) == Joined(front) + last;
    if front == [] {
      NoMore(last);
    } else {
      MoreAndMore(begun.GetOr(""), Joined(front), last);
    }
  }

  lemma OneThinking(at: (State, Heard), index: int, piece: string)
    requires index in at.0.blocks
    ensures var kept := at.0.blocks[index];
            && FeedOne(at, BlockDelta(Some(index), AsThinking(piece))) ==
               (at.0.(blocks := at.0.blocks[index := WithThinking(kept, Some(kept.block.thinking.GetOr("") + piece), kept.block.signature)]), at.1)
            && FeedOne(at, BlockDelta(Some(index), AsSignature(piece))) ==
               (at.0.(blocks := at.0.blocks[index := WithThinking(kept, kept.block.thinking, Some(kept.block.signature.GetOr("") + piece))]), at.1)
  {
    NoMore(at.1.content);
  }

  /** A thought, then its signature, piece by piece. */
  lemma {:induction false} ThinkingPieces(at: (State, Heard), index: int, pieces: seq<string>)
    requires index in at.0.blocks
    ensures var kept := at.0.blocks[index];
            FeedAll(at, Deltas(index, AsThinking, pieces)) ==
            (at.0.(blocks := at.0.blocks[index := WithThinking(kept, Longer(kept.block.thinking, pieces), kept.block.signature)]), at.1)
    decreases |pieces|
  {
    hide FeedAll, FeedOne, Joined, Deltas;
    if pieces == [] {
      PiecesNone(at, index, AsThinking);
      assert at.0.blocks[index := at.0.blocks[index]] == at.0.blocks;
    } else {
      var front, last := pieces[..|pieces| - 1], pieces[|pieces| - 1];
      ThinkingPieces(at, index, front);
      PiecesLast(at, index, AsThinking, pieces);
      var kept, mid := at.0.blocks[index], FeedAll(at, Deltas(index, AsThinking, front));
      OneThinking(mid, index, last);
      LongerByOne(kept.block.thinking, pieces);
      assert mid.0.blocks[index].block.thinking == Longer(kept.block.thinking, front);
      assert mid.0.blocks[index := WithThinking(mid.0.blocks[index], Longer(kept.block.thinking, pieces), kept.block.signature)]
          == at.0.blocks[index := WithThinking(kept, Longer(kept.block.thinking, pieces), kept.block.signature)];
    }
  }

  lemma {:induction false} SignaturePieces(at: (State, Heard), index: int, pieces: seq<string>)
    requires index in at.0.blocks
    ensures var kept := at.0.blocks[index];
            FeedAll(at, Deltas(index, AsSignature, pieces)) ==
            (at.0.(blocks := at.0.blocks[index := WithThinking(kept, kept.block.thinking, Longer(kept.block.signature, pieces))]), at.1)
    decreases |pieces|
  {
    hide FeedAll, FeedOne, Joined, Deltas;
    if pieces == [] {
      PiecesNone(at, index, AsSignature);
      assert at.0.blocks[index := at.0.blocks[index]] == at.0.blocks;
    } else {
      var front, last := pieces[..|pieces| - 1], pieces[|pieces| - 1];
      SignaturePieces(at, index, front);
      PiecesLast(at, index, AsSignature, pieces);
      var kept, mid := at.0.blocks[index], FeedAll(at, Deltas(index, AsSignature, front));
      OneThinking(mid, index, last);
      LongerByOne(kept.block.signature, pieces);
      assert mid.0.blocks[index].block.signature == Longer(kept.block.signature, front);
      assert mid.0.blocks[index := WithThinking(mid.0.blocks[index], kept.block.thinking, Longer(kept.block.signature, pieces))]
          == at.0.blocks[index := WithThinking(kept, kept.block.thinking, Longer(kept.block.signature, pieces))];
    }
  }

  lemma BlockFeeds(at: (State, Heard), index: int, whole: Whole)
    ensures FeedAll(at, BlockEvents(index, whole)) ==
            FeedOne(FeedAll(FeedOne(at, BlockStart(Some(index), FirstOf(whole))), PieceEvents(index, whole)), BlockStop(Some(index)))
  {
    hide FeedOne, PieceEvents;
    var start := [BlockStart(Some(index), FirstOf(whole))];
    FeedLast(at, start + PieceEvents(index, whole), BlockStop(Some(index)));
    FeedConcat(at, start, PieceEvents(index, whole));
    FeedLast(at, [], BlockStart(Some(index), FirstOf(whole)));
    assert [] + start == start;
  }

  lemma Begun(at: (State, Heard), index: int, block: Block)
    requires !block.kind.ToolUseKind?
    ensures FeedOne(at, BlockStart(Some(index), block)) ==
            (at.0.(blocks := at.0.blocks[index := Kept(block, None, false)]),
             at.1.(content := at.1.content + if block.kind.TextKind? then block.text.GetOr("") else ""))
  {
  }

  lemma Stops(at: (State, Heard), index: int)
    requires index in at.0.blocks && at.0.blocks[index].tool.None?
    ensures var block := at.0.blocks[index].block;
            FeedOne(at, BlockStop(Some(index))) ==
            (if block.kind.ThinkingKind? || block.kind.RedactedKind? then at.0.(thinking := at.0.thinking + [block]) else at.0, at.1)
  {
    NoMore(at.1.content);
  }

  lemma TextHeard(at: (State, Heard), index: int, whole: Whole)
    requires whole.WholeText?
    ensures var after := FeedAll(at, BlockEvents(index, whole));
            && after.0.tools == at.0.tools && after.0.thinking == at.0.thinking
            && after.1 == at.1.(content := at.1.content + (whole.begun + Joined(whole.pieces)))
  {
    hide FeedAll, FeedOne, Joined, BlockEvents;
    BlockFeeds(at, index, whole);
    Begun(at, index, FirstOf(whole));
    var begun := FeedOne(at, BlockStart(Some(index), FirstOf(whole)));
    TextPieces(begun, index, whole.pieces);
    Stops(FeedAll(begun, Deltas(index, AsText, whole.pieces)), index);
    MoreAndMore(at.1.content, whole.begun, Joined(whole.pieces));
  }

  lemma CallHeard(at: (State, Heard), index: int, whole: Whole)
    requires whole.WholeCall? && at.0.tools !in at.1.tools
    ensures var after := FeedAll(at, BlockEvents(index, whole));
            && after.0.tools == at.0.tools + 1 && after.0.thinking == at.0.thinking
            && after.1 == at.1.(tools := at.1.tools[at.0.tools :=
                 Made(whole.id, whole.name, if whole.pieces == [] then whole.input.GetOr("{}") else Joined(whole.pieces))])
  {
    hide FeedAll, FeedOne, Joined, BlockEvents;
    BlockFeeds(at, index, whole);
    CallBegun(at, index, whole);
    var begun := FeedOne(at, BlockStart(Some(index), FirstOf(whole)));
    JsonPieces(begun, index, at.0.tools, whole.pieces);
    CallStops(FeedAll(begun, Deltas(index, AsJson, whole.pieces)), index, at.0.tools);
    NoMore(Joined(whole.pieces));
    PiecesNone(at, index, AsJson);
    NoMore(whole.input.GetOr("{}"));
  }

  lemma CallBegun(at: (State, Heard), index: int, whole: Whole)
    requires whole.WholeCall? && at.0.tools !in at.1.tools
    ensures FeedOne(at, BlockStart(Some(index), FirstOf(whole))) ==
            (at.0.(blocks := at.0.blocks[index := Kept(FirstOf(whole), Some(at.0.tools), false)], tools := at.0.tools + 1),
             at.1.(tools := at.1.tools[at.0.tools := Made(whole.id, whole.name, "")]))
  {
    NoMore(at.1.content);
    NoMore("");
    assert FirstOf(whole).id == whole.id && FirstOf(whole).name == whole.name;
    assert Nonempty(Some(whole.id), "") == whole.id && Nonempty(Some(whole.name), "") == whole.name;
  }

  lemma CallStops(at: (State, Heard), index: int, n: nat)
    requires index in at.0.blocks && at.0.blocks[index].tool == Some(n) && at.0.blocks[index].block.kind.ToolUseKind? && n in at.1.tools
    ensures FeedOne(at, BlockStop(Some(index))).0 == at.0
    ensures FeedOne(at, BlockStop(Some(index))).1 ==
            if at.0.blocks[index].gotJson then at.1
            else at.1.(tools := at.1.tools[n := at.1.tools[n].(arguments := at.1.tools[n].arguments + at.0.blocks[index].block.input.GetOr("{}"))])
  {
    NoMore(at.1.content);
  }

  lemma ThoughtHeard(at: (State, Heard), index: int, whole: Whole)
    requires whole.WholeThought?
    ensures var after := FeedAll(at, BlockEvents(index, whole));
            && after.0.tools == at.0.tools && after.1 == at.1
            && after.0.thinking == at.0.thinking +
                 [FirstOf(whole).(thinking := Longer(Some(whole.begun), whole.pieces), signature := Longer(None, whole.signatures))]
  {
    hide FeedAll, FeedOne, Joined, BlockEvents, Deltas, Longer;
    BlockFeeds(at, index, whole);
    Begun(at, index, FirstOf(whole));
    NoMore(at.1.content);
    var begun := FeedOne(at, BlockStart(Some(index), FirstOf(whole)));
    var thinking, signatures := Deltas(index, AsThinking, whole.pieces), Deltas(index, AsSignature, whole.signatures);
    FeedConcat(begun, thinking, signatures);
    ThinkingPieces(begun, index, whole.pieces);
    SignaturePieces(FeedAll(begun, thinking), index, whole.signatures);
    Stops(FeedAll(FeedAll(begun, thinking), signatures), index);
  }

  lemma RedactedHeard(at: (State, Heard), index: int, whole: Whole)
    requires whole.WholeRedacted?
    ensures var after := FeedAll(at, BlockEvents(index, whole));
            && after.0.tools == at.0.tools && after.1 == at.1
            && after.0.thinking == at.0.thinking + [FirstOf(whole)]
  {
    hide FeedAll, FeedOne, BlockEvents;
    BlockFeeds(at, index, whole);
    Begun(at, index, FirstOf(whole));
    NoMore(at.1.content);
    var begun := FeedOne(at, BlockStart(Some(index), FirstOf(whole)));
    FeedNone(begun);
    Stops(begun, index);
  }

  lemma FeedNone(at: (State, Heard))
    ensures FeedAll(at, []) == at
  {
  }

  /**
   * A reply streamed block by block is heard whole, however its blocks are cut into pieces: its
   * text, its calls with their arguments, and its thoughts with their signatures, all in order.
   */
  lemma {:induction false} ReplyHeard(reply: seq<Whole>, usage: Option<Mapped>)
    ensures HeardIs(FeedAll((FRESH, Heard("", map[], usage)), ReplyEvents(reply)), reply)
  {
    hide FeedAll, HeardIs, BlockEvents;
    var start := (FRESH, Heard("", map[], usage));
    if reply == [] {
      FeedNone(start);
      NothingHeard(usage);
    } else {
      var front, last := reply[..|reply| - 1], reply[|reply| - 1];
      ReplyHeard(front, usage);
      FeedConcat(start, ReplyEvents(front), BlockEvents(|front|, last));
      BlockHeard(FeedAll(start, ReplyEvents(front)), front, last);
      assert front + [last] == reply;
    }
  }

  lemma NothingHeard(usage: Option<Mapped>)
    ensures HeardIs((FRESH, Heard("", map[], usage)), [])
  {
  }

  /** What one block more adds to a reply. */
  lemma SaidLast(front: seq<Whole>, last: Whole)
    ensures TextsOf(front + [last]) == TextsOf(front) + if last.WholeText? then last.begun + Joined(last.pieces) else ""
    ensures CallsOf(front + [last]) ==
            CallsOf(front) + if last.WholeCall? then [Made(last.id, last.name, if last.pieces == [] then last.input.GetOr("{}") else Joined(last.pieces))] else []
    ensures last.WholeText? || last.WholeCall? ==> ThoughtsOf(front + [last]) == ThoughtsOf(front)
    ensures last.WholeThought? ==>
              ThoughtsOf(front + [last]) ==
              ThoughtsOf(front) + [FirstOf(last).(thinking := Longer(Some(last.begun), last.pieces), signature := Longer(None, last.signatures))]
    ensures last.WholeRedacted? ==> ThoughtsOf(front + [last]) == ThoughtsOf(front) + [FirstOf(last)]
  {
    assert (front + [last])[..|front|] == front;
    var all := front + [last];
    assert all != [] && all[|all| - 1] == last;
    assert ThoughtsOf(front) + [] == ThoughtsOf(front);
    if last.WholeThought? {
      assert last.pieces == [] ==> Joined(last.pieces) == "";
      NoMore(last.begun);
      NoMore(Joined(last.signatures));
    }
  }

  lemma BlockHeard(at: (State, Heard), front: seq<Whole>, last: Whole)
    requires HeardIs(at, front)
    ensures HeardIs(FeedAll(at, BlockEvents(|front|, last)), front + [last])
  {
    hide FeedAll, Joined, FirstOf, BlockEvents, TextsOf, CallsOf, ThoughtsOf, Longer;
    SaidLast(front, last);
    NoMore(TextsOf(front));
    match last
    case WholeText(_, _) => TextHeard(at, |front|, last);
    case WholeCall(_, _, _, _) => CallHeard(at, |front|, last);
    case WholeThought(_, _, _) => ThoughtHeard(at, |front|, last);
    case WholeRedacted(_) => RedactedHeard(at, |front|, last);
  }
}
