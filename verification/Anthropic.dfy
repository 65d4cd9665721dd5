/**
 * A loop of chat messages as a Messages request: turns that alternate, tool calls answered in the
 * turn that follows.
 */
module Anthropic {
  import opened Wrappers
  import opened JsStrings
  import opened Lists

  datatype Part = TextPart(text: string) | ImagePart(url: string)

  datatype Content = NoContent | Plain(text: string) | Parts(parts: seq<Part>)

  datatype Call = Call(id: string, name: string, arguments: string)

  /** Thinking blocks of an earlier reply, filed under the endpoint and model that wrote them. */
  datatype Carry = Carry(key: string, thoughts: seq<string>)

  datatype Message =
    | System(content: Content)
    | User(content: Content)
    | Assistant(content: Content, calls: seq<Call>, carry: Option<Carry>)
    | Tool(content: Content, callId: string)

  datatype Block =
    | Text(text: string)
    | Base64Image(mime: string, data: string)
    | UrlImage(url: string)
    | Thought(thought: string)
    | ToolUse(id: string, name: string, input: string)
    | ToolResult(toolUseId: string, inner: seq<Block>)

  datatype Role = UserRole | AssistantRole

  datatype Turn = Turn(role: Role, content: seq<Block>)

  // ---- Blocks of one message ----

  /** Up to the first `;` or `,`. */
  function NameLength(s: string): (n: nat)
    ensures n <= |s|
  {
    if s == "" || s[0] == ';' || s[0] == ',' then 0 else 1 + NameLength(s[1..])
  }

  function Lower(c: char): char {
    if 'A' <= c <= 'Z' then (c as int + 32) as char else c
  }

  predicate StartsWithIgnoringCase(s: string, prefix: string) {
    |prefix| <= |s| && forall i :: 0 <= i < |prefix| ==> Lower(s[i]) == prefix[i]
  }

  /** A data URI's picture, a picture by web address, or nothing. */
  function ImageBlocks(url: string): seq<Block> {
    var n := if "data:" <= url then NameLength(url[5..]) else 0;
    if n > 0 && ";base64," <= url[5 + n..] then [Base64Image(url[5..5 + n], url[5 + n + 8..])]
    else if StartsWithIgnoringCase(url, "http://") || StartsWithIgnoringCase(url, "https://") then [UrlImage(url)]
    else []
  }

  function BlocksOfPart(part: Part): seq<Block> {
    match part
    case TextPart(text) => if IsBlankText(text) then [] else [Text(text)]
    case ImagePart(url) => ImageBlocks(url)
  }

  /** `contentBlocks`. */
  function ContentBlocks(content: Content): seq<Block> {
    match content
    case NoContent => []
    case Plain(text) => if IsBlankText(text) then [] else [Text(text)]
    case Parts(parts) => FlatMap(BlocksOfPart, parts)
  }

  predicate IsIdChar(c: char) {
    'a' <= c <= 'z' || 'A' <= c <= 'Z' || '0' <= c <= '9' || c == '_' || c == '-'
  }

  /** Every UTF-16 unit that an id may not hold becomes an underscore. */
  function CleanId(id: string): string {
    if id == "" then "" else (if IsIdChar(id[0]) then [id[0]] else if id[0] as int >= 0x1_0000 then "__" else "_") + CleanId(id[1..])
  }

  /** `toolId`. */
  function ToolId(id: string): (r: string)
    ensures r != ""
  {
    if CleanId(id) == "" then "call" else CleanId(id)
  }

  lemma {:induction false} CleanIdIsClean(id: string, c: char)
    requires c in CleanId(id)
    ensures IsIdChar(c)
  {
    if id != "" && c in CleanId(id[1..]) { CleanIdIsClean(id[1..], c); }
  }

  function BlocksOfCall(input: string -> string): Call -> seq<Block> {
    (call: Call) => [ToolUse(ToolId(call.id), call.name, input(call.arguments))]
  }

  function BlocksOfThought(thought: string): seq<Block> {
    [Thought(thought)]
  }

  /** The blocks a message comes to; a system message comes to none here. */
  function BlocksOf(m: Message, carryKey: string, input: string -> string): seq<Block> {
    match m
    case System(_) => []
    case User(content) => ContentBlocks(content)
    case Assistant(content, calls, carry) =>
      (if carry.Some? && carry.value.key == carryKey && calls != [] then FlatMap(BlocksOfThought, carry.value.thoughts) else [])
      + ContentBlocks(content) + FlatMap(BlocksOfCall(input), calls)
    case Tool(content, callId) => [ToolResult(ToolId(callId), ContentBlocks(content))]
  }

  function RoleOf(m: Message): Role {
    if m.Assistant? then AssistantRole else UserRole
  }

  // ---- Turns ----

  /** `push`: onto the last turn when it is of the same role. */
  function Push(turns: seq<Turn>, role: Role, blocks: seq<Block>): seq<Turn> {
    if blocks == [] then turns
    else if turns != [] && turns[|turns| - 1].role == role then
      turns[|turns| - 1 := Turn(role, turns[|turns| - 1].content + blocks)]
    else turns + [Turn(role, blocks)]
  }

  function Gather(turns: seq<Turn>, ms: seq<Message>, carryKey: string, input: string -> string): seq<Turn>
    decreases |ms|
  {
    if ms == [] then turns
    else Gather(Push(turns, RoleOf(ms[0]), BlocksOf(ms[0], carryKey, input)), ms[1..], carryKey, input)
  }

  function AsResult(b: Block): seq<Block> {
    if b.ToolResult? then [b] else []
  }

  function AsOther(b: Block): seq<Block> {
    if b.ToolResult? then [] else [b]
  }

  function Results(blocks: seq<Block>): seq<Block> {
    FlatMap(AsResult, blocks)
  }

  function Others(blocks: seq<Block>): seq<Block> {
    FlatMap(AsOther, blocks)
  }

  /** The results of a user turn come first. */
  function Settle(turn: Turn): Turn {
    if turn.role == UserRole then Turn(UserRole, Results(turn.content) + Others(turn.content)) else turn
  }

  function Settled(turns: seq<Turn>): seq<Turn> {
    seq(|turns|, i requires 0 <= i < |turns| => Settle(turns[i]))
  }

  const ELLIPSIS := Turn(UserRole, [Text("\U{2026}")])

  function StartWithUser(turns: seq<Turn>): seq<Turn> {
    if turns != [] && turns[0].role == AssistantRole then [ELLIPSIS] + turns else turns
  }

  function ToTurns(ms: seq<Message>, carryKey: string, input: string -> string): seq<Turn> {
    StartWithUser(Settled(Gather([], ms, carryKey, input)))
  }

  /** `toAnthropicMessages`, the turns of it. */
  method ToAnthropicMessages(messages: seq<Message>, carryKey: string, input: string -> string) returns (turns: seq<Turn>)
    ensures turns == ToTurns(messages, carryKey, input)
  {
    hide BlocksOf;
    turns := [];
    assert messages[0..] == messages;
    for i := 0 to |messages|
      invariant Gather([], messages, carryKey, input) == Gather(turns, messages[i..], carryKey, input)
    {
      assert messages[i..][1..] == messages[i + 1..];
      var m := messages[i];
      var content := BlocksOf(m, carryKey, input);
      if content != [] {
        var role := RoleOf(m);
        if |turns| > 0 && turns[|turns| - 1].role == role {
          turns := turns[|turns| - 1 := Turn(role, turns[|turns| - 1].content + content)];
        } else {
          turns := turns + [Turn(role, content)];
        }
      }
    }
    turns := MoveResults(turns);
    if |turns| > 0 && turns[0].role == AssistantRole {
      turns := [ELLIPSIS] + turns;
    }
  }

  /** The results of each user turn go first, where it holds anything else. */
  method MoveResults(gathered: seq<Turn>) returns (turns: seq<Turn>)
    ensures turns == Settled(gathered)
  {
    hide Settle;
    turns := gathered;
    for i := 0 to |gathered|
      invariant |turns| == |gathered|
      invariant forall k :: 0 <= k < i ==> turns[k] == Settle(gathered[k])
      invariant forall k :: i <= k < |turns| ==> turns[k] == gathered[k]
    {
      var turn := MoveInTurn(turns[i]);
      turns := turns[i := turn];
    }
  }

  method MoveInTurn(turn: Turn) returns (moved: Turn)
    ensures moved == Settle(turn)
  {
    moved := turn;
    if turn.role == UserRole {
      var results := Results(turn.content);
      SettleAsNeeded(turn);
      if |results| == 0 || |results| == |turn.content| { return; }
      moved := Turn(UserRole, results + Others(turn.content));
    }
  }

  lemma {:induction false} ResultsAndOthers(blocks: seq<Block>)
    ensures |Results(blocks)| + |Others(blocks)| == |blocks|
    ensures Results(blocks) == [] ==> Others(blocks) == blocks
    ensures Others(blocks) == [] ==> Results(blocks) == blocks
  {
    if blocks != [] {
      ResultsAndOthers(blocks[1..]);
      assert blocks == [blocks[0]] + blocks[1..];
    }
  }

  lemma {:induction false} SameBlocks(blocks: seq<Block>)
    ensures multiset(Results(blocks)) + multiset(Others(blocks)) == multiset(blocks)
  {
    if blocks != [] {
      SameBlocks(blocks[1..]);
      assert blocks == [blocks[0]] + blocks[1..];
    }
  }

  /** A turn without results, or with nothing else, stays as it is. */
  lemma SettleAsNeeded(turn: Turn)
    ensures |Results(turn.content)| == 0 || |Results(turn.content)| == |turn.content| ==> Settle(turn) == turn
  {
    ResultsAndOthers(turn.content);
    assert [] + turn.content == turn.content && turn.content + [] == turn.content;
  }

  // ---- Alternation ----

  ghost predicate Alternates(turns: seq<Turn>) {
    && (forall i :: 0 <= i < |turns| ==> turns[i].content != [])
    && (forall i :: 0 <= i < |turns| - 1 ==> turns[i].role != turns[i + 1].role)
  }

  lemma {:induction false} GatherAlternates(turns: seq<Turn>, ms: seq<Message>, carryKey: string, input: string -> string)
    requires Alternates(turns)
    ensures Alternates(Gather(turns, ms, carryKey, input))
    decreases |ms|
  {
    hide BlocksOf;
    if ms != [] {
      GatherAlternates(Push(turns, RoleOf(ms[0]), BlocksOf(ms[0], carryKey, input)), ms[1..], carryKey, input);
    }
  }

  /** Every request's turns start with the user, strictly alternate and are never empty. */
  lemma TurnsAlternate(ms: seq<Message>, carryKey: string, input: string -> string)
    ensures Alternates(ToTurns(ms, carryKey, input))
    ensures ToTurns(ms, carryKey, input) != [] ==> ToTurns(ms, carryKey, input)[0].role == UserRole
  {
    hide FlatMap, BlocksOf, Gather, Results, Others;
    GatherAlternates([], ms, carryKey, input);
    var turns := Gather([], ms, carryKey, input);
    forall i | 0 <= i < |turns|
      ensures Settle(turns[i]).role == turns[i].role && Settle(turns[i]).content != []
    {
      ResultsAndOthers(turns[i].content);
    }
  }

  // ---- Nothing is lost ----

  function AllBlocks(turns: seq<Turn>): seq<Block> {
    if turns == [] then [] else AllBlocks(turns[..|turns| - 1]) + turns[|turns| - 1].content
  }

  function MessageBlocks(ms: seq<Message>, carryKey: string, input: string -> string): seq<Block> {
    FlatMap((m: Message) => BlocksOf(m, carryKey, input), ms)
  }

  lemma PushKeeps(turns: seq<Turn>, role: Role, blocks: seq<Block>)
    ensures AllBlocks(Push(turns, role, blocks)) == AllBlocks(turns) + blocks
  {
    var pushed := Push(turns, role, blocks);
    if blocks == [] {
      assert AllBlocks(turns) + [] == AllBlocks(turns);
    } else if turns != [] && turns[|turns| - 1].role == role {
      assert pushed[..|pushed| - 1] == turns[..|turns| - 1];
    } else {
      assert pushed[..|turns|] == turns;
    }
  }

  /**
   * Before the results are moved, the turns hold every block of every message, in order; moving
   * them keeps each turn's blocks, the results first and each kind in its own order.
   */
  lemma {:induction false} GatherKeeps(turns: seq<Turn>, ms: seq<Message>, carryKey: string, input: string -> string)
    ensures AllBlocks(Gather(turns, ms, carryKey, input)) == AllBlocks(turns) + MessageBlocks(ms, carryKey, input)
    decreases |ms|
  {
    hide BlocksOf, Push, AllBlocks;
    if ms == [] {
      assert AllBlocks(turns) + [] == AllBlocks(turns);
    } else {
      var blocks := BlocksOf(ms[0], carryKey, input);
      PushKeeps(turns, RoleOf(ms[0]), blocks);
      GatherKeeps(Push(turns, RoleOf(ms[0]), blocks), ms[1..], carryKey, input);
      assert AllBlocks(turns) + blocks + MessageBlocks(ms[1..], carryKey, input) == AllBlocks(turns) + (blocks + MessageBlocks(ms[1..], carryKey, input));
    }
  }

  /** The results among the results, or among the rest. */
  lemma PartitionOrder(blocks: seq<Block>)
    ensures Results(Results(blocks) + Others(blocks)) == Results(blocks)
    ensures Others(Results(blocks) + Others(blocks)) == Others(blocks)
  {
    forall b: Block
      ensures FlatMap(AsResult, AsResult(b)) == AsResult(b) && FlatMap(AsOther, AsResult(b)) == []
      ensures FlatMap(AsResult, AsOther(b)) == [] && FlatMap(AsOther, AsOther(b)) == AsOther(b)
    {
      FlatMapOne(AsResult, b);
      FlatMapOne(AsOther, b);
    }
    hide FlatMap;
    FlatMapTwice(AsResult, AsResult, AsResult, blocks);
    FlatMapTwice(AsOther, AsOther, AsOther, blocks);
    NoneOf(blocks);
    FlatMapConcat(AsResult, Results(blocks), Others(blocks));
    FlatMapConcat(AsOther, Results(blocks), Others(blocks));
    assert Results(blocks) + [] == Results(blocks) && [] + Others(blocks) == Others(blocks);
  }

  lemma NoneOf(blocks: seq<Block>)
    ensures Results(Others(blocks)) == [] && Others(Results(blocks)) == []
  {
    forall b | b in Others(blocks)
      ensures AsResult(b) == []
    {
      FlatMapFrom(AsOther, blocks, b);
    }
    forall b | b in Results(blocks)
      ensures AsOther(b) == []
    {
      FlatMapFrom(AsResult, blocks, b);
    }
    FlatMapNone(AsResult, Others(blocks));
    FlatMapNone(AsOther, Results(blocks));
  }

  /** The same blocks; in a user turn the results stand in front, each kind in its own order. */
  ghost predicate OnlyMoved(before: Turn, after: Turn) {
    && after.role == before.role
    && multiset(after.content) == multiset(before.content)
    && Results(after.content) == Results(before.content) && Others(after.content) == Others(before.content)
    && (before.role == UserRole ==> after.content == Results(before.content) + Others(before.content))
    && (before.role == AssistantRole ==> after == before)
  }

  lemma SettleMoves(turn: Turn)
    ensures OnlyMoved(turn, Settle(turn))
  {
    SameBlocks(turn.content);
    PartitionOrder(turn.content);
  }

  /** All blocks survive, user turns' results moved to the front of their turn and nothing else moved. */
  lemma NothingLost(ms: seq<Message>, carryKey: string, input: string -> string)
    ensures var gathered, turns := Gather([], ms, carryKey, input), ToTurns(ms, carryKey, input);
            var first := |turns| - |gathered|;
            && AllBlocks(gathered) == MessageBlocks(ms, carryKey, input)
            && 0 <= first <= 1 && (first == 1 ==> turns[0] == ELLIPSIS)
            && forall i :: 0 <= i < |gathered| ==> OnlyMoved(gathered[i], turns[first + i])
  {
    hide Gather, OnlyMoved, Settle, MessageBlocks, AllBlocks;
    var gathered, turns := Gather([], ms, carryKey, input), ToTurns(ms, carryKey, input);
    GatherKeeps([], ms, carryKey, input);
    NoBlocks();
    assert [] + MessageBlocks(ms, carryKey, input) == MessageBlocks(ms, carryKey, input);
    forall i | 0 <= i < |gathered|
      ensures OnlyMoved(gathered[i], turns[|turns| - |gathered| + i])
    {
      SettleMoves(gathered[i]);
    }
  }

  lemma NoBlocks()
    ensures AllBlocks([]) == []
  {
  }

  // ---- Calls and results ----

  function IdOfCall(call: Call): seq<string> {
    [ToolId(call.id)]
  }

  function CallIds(calls: seq<Call>): seq<string> {
    FlatMap(IdOfCall, calls)
  }

  /**
   * Each assistant line's calls are followed by their results, in order, before anything else but
   * system lines; `owed` are the calls still waiting.
   */
  ghost predicate Paired(ms: seq<Message>, owed: seq<string>) {
    if ms == [] then owed == []
    else
      match ms[0]
      case System(_) => Paired(ms[1..], owed)
      case Tool(_, callId) => owed != [] && ToolId(callId) == owed[0] && Paired(ms[1..], owed[1..])
      case Assistant(_, calls, _) => owed == [] && Paired(ms[1..], CallIds(calls))
      case User(_) => owed == [] && Paired(ms[1..], [])
  }

  function UseId(b: Block): seq<string> {
    if b.ToolUse? then [b.id] else []
  }

  function ResultId(b: Block): seq<string> {
    if b.ToolResult? then [b.toolUseId] else []
  }

  function UseIds(blocks: seq<Block>): seq<string> {
    FlatMap(UseId, blocks)
  }

  function ResultIds(blocks: seq<Block>): seq<string> {
    FlatMap(ResultId, blocks)
  }

  function ResultIdsAt(turns: seq<Turn>, i: nat): seq<string> {
    if i < |turns| then ResultIds(turns[i].content) else []
  }

  /** Every assistant turn's calls are the results of the next turn, but for those still owed at the end. */
  ghost predicate Answered(turns: seq<Turn>, owed: seq<string>) {
    && (forall i :: 0 <= i < |turns| && turns[i].role == AssistantRole ==>
          UseIds(turns[i].content) == ResultIdsAt(turns, i + 1) + (if i + 2 >= |turns| then owed else []))
    && (turns != [] && turns[0].role == UserRole ==> ResultIds(turns[0].content) == [])
    && (turns == [] || (|turns| == 1 && turns[0].role == UserRole) ==> owed == [])
  }

  lemma IdsConcat(a: seq<Block>, b: seq<Block>)
    ensures UseIds(a + b) == UseIds(a) + UseIds(b) && ResultIds(a + b) == ResultIds(a) + ResultIds(b)
  {
    FlatMapConcat(UseId, a, b);
    FlatMapConcat(ResultId, a, b);
  }

  /** Content holds no calls and no results. */
  lemma ContentIds(content: Content)
    ensures UseIds(ContentBlocks(content)) == [] && ResultIds(ContentBlocks(content)) == []
  {
    forall b | b in ContentBlocks(content)
      ensures UseId(b) == [] && ResultId(b) == []
    {
      if content.Parts? { FlatMapFrom(BlocksOfPart, content.parts, b); }
    }
    FlatMapNone(UseId, ContentBlocks(content));
    FlatMapNone(ResultId, ContentBlocks(content));
  }

  lemma CallBlockIds(calls: seq<Call>, input: string -> string)
    ensures UseIds(FlatMap(BlocksOfCall(input), calls)) == CallIds(calls)
    ensures ResultIds(FlatMap(BlocksOfCall(input), calls)) == []
  {
    forall call: Call
      ensures FlatMap(UseId, BlocksOfCall(input)(call)) == IdOfCall(call)
    {
      FlatMapOne(UseId, BlocksOfCall(input)(call)[0]);
    }
    FlatMapTwice(BlocksOfCall(input), UseId, IdOfCall, calls);
    forall b | b in FlatMap(BlocksOfCall(input), calls)
      ensures ResultId(b) == []
    {
      FlatMapFrom(BlocksOfCall(input), calls, b);
    }
    FlatMapNone(ResultId, FlatMap(BlocksOfCall(input), calls));
  }

  lemma ThoughtIds(thoughts: seq<string>)
    ensures UseIds(FlatMap(BlocksOfThought, thoughts)) == [] && ResultIds(FlatMap(BlocksOfThought, thoughts)) == []
  {
    forall b | b in FlatMap(BlocksOfThought, thoughts)
      ensures UseId(b) == [] && ResultId(b) == []
    {
      FlatMapFrom(BlocksOfThought, thoughts, b);
    }
    FlatMapNone(UseId, FlatMap(BlocksOfThought, thoughts));
    FlatMapNone(ResultId, FlatMap(BlocksOfThought, thoughts));
  }

  /** The ids in a message's blocks: an assistant's calls, a tool line's one result. */
  lemma BlockIds(m: Message, carryKey: string, input: string -> string)
    ensures UseIds(BlocksOf(m, carryKey, input)) == if m.Assistant? then CallIds(m.calls) else []
    ensures ResultIds(BlocksOf(m, carryKey, input)) == if m.Tool? then [ToolId(m.callId)] else []
  {
    ContentIds(m.content);
    match m
    case Assistant(content, calls, carry) =>
      hide FlatMap, ContentBlocks, CallIds;
      var thoughts := if carry.Some? && carry.value.key == carryKey && calls != [] then FlatMap(BlocksOfThought, carry.value.thoughts) else [];
      if carry.Some? { ThoughtIds(carry.value.thoughts); }
      FlatMapNone(UseId, []);
      FlatMapNone(ResultId, []);
      CallBlockIds(calls, input);
      IdsConcat(thoughts + ContentBlocks(content), FlatMap(BlocksOfCall(input), calls));
      IdsConcat(thoughts, ContentBlocks(content));
    case Tool(content, callId) =>
      FlatMapOne(UseId, BlocksOf(m, carryKey, input)[0]);
      FlatMapOne(ResultId, BlocksOf(m, carryKey, input)[0]);
    case _ =>
  }

  /** One message more keeps calls and results in step. */
  lemma PushAnswers(turns: seq<Turn>, role: Role, blocks: seq<Block>, owed: seq<string>, owed': seq<string>)
    requires Alternates(turns) && Answered(turns, owed)
    requires role == AssistantRole ==> owed == [] && owed' == UseIds(blocks) && ResultIds(blocks) == []
    requires role == UserRole ==> owed == ResultIds(blocks) + owed' && UseIds(blocks) == []
    ensures Answered(Push(turns, role, blocks), owed')
  {
    if blocks == [] {
      assert owed == owed';
    } else if turns != [] && turns[|turns| - 1].role == role {
      MergeAnswers(turns, role, blocks, owed, owed');
    } else {
      AppendAnswers(turns, role, blocks, owed, owed');
    }
  }

  lemma AppendAnswers(turns: seq<Turn>, role: Role, blocks: seq<Block>, owed: seq<string>, owed': seq<string>)
    requires Alternates(turns) && Answered(turns, owed) && blocks != [] && (turns == [] || turns[|turns| - 1].role != role)
    requires role == AssistantRole ==> owed == [] && owed' == UseIds(blocks) && ResultIds(blocks) == []
    requires role == UserRole ==> owed == ResultIds(blocks) + owed' && UseIds(blocks) == []
    ensures Answered(Push(turns, role, blocks), owed')
  {
    hide FlatMap, UseIds, ResultIds;
    var pushed := Push(turns, role, blocks);
    forall i | 0 <= i < |pushed| && pushed[i].role == AssistantRole
      ensures UseIds(pushed[i].content) == ResultIdsAt(pushed, i + 1) + (if i + 2 >= |pushed| then owed' else [])
    {
      if i < |turns| { AppendedTurn(turns, role, blocks, owed, owed', i); }
    }
  }

  lemma AppendedTurn(turns: seq<Turn>, role: Role, blocks: seq<Block>, owed: seq<string>, owed': seq<string>, i: nat)
    requires Alternates(turns) && Answered(turns, owed) && i < |turns| && turns[i].role == AssistantRole && turns[|turns| - 1].role != role
    requires role == AssistantRole ==> owed == []
    requires role == UserRole ==> owed == ResultIds(blocks) + owed'
    ensures var pushed := turns + [Turn(role, blocks)];
            UseIds(pushed[i].content) == ResultIdsAt(pushed, i + 1) + (if i + 2 >= |pushed| then owed' else [])
  {
    hide FlatMap, UseIds, ResultIds;
    if i + 1 < |turns| { assert turns[i].role != turns[i + 1].role; }
  }

  lemma MergeAnswers(turns: seq<Turn>, role: Role, blocks: seq<Block>, owed: seq<string>, owed': seq<string>)
    requires Alternates(turns) && Answered(turns, owed) && blocks != [] && turns != [] && turns[|turns| - 1].role == role
    requires role == AssistantRole ==> owed == [] && owed' == UseIds(blocks) && ResultIds(blocks) == []
    requires role == UserRole ==> owed == ResultIds(blocks) + owed' && UseIds(blocks) == []
    ensures Answered(Push(turns, role, blocks), owed')
  {
    IdsConcat(turns[|turns| - 1].content, blocks);
    hide UseIds, ResultIds;
    var pushed := Push(turns, role, blocks);
    forall i | 0 <= i < |pushed| && pushed[i].role == AssistantRole
      ensures UseIds(pushed[i].content) == ResultIdsAt(pushed, i + 1) + (if i + 2 >= |pushed| then owed' else [])
    {
      MergedTurn(turns, role, blocks, owed, owed', i);
    }
  }

  lemma MergedTurn(turns: seq<Turn>, role: Role, blocks: seq<Block>, owed: seq<string>, owed': seq<string>, i: nat)
    requires Alternates(turns) && Answered(turns, owed) && turns != [] && turns[|turns| - 1].role == role && blocks != []
    requires role == AssistantRole ==> owed == [] && owed' == UseIds(blocks) && ResultIds(blocks) == []
    requires role == UserRole ==> owed == ResultIds(blocks) + owed' && UseIds(blocks) == []
    requires i < |turns| && turns[i].role == AssistantRole
    ensures var pushed := Push(turns, role, blocks);
            UseIds(pushed[i].content) == ResultIdsAt(pushed, i + 1) + (if i + 2 >= |pushed| then owed' else [])
  {
    hide FlatMap;
    IdsConcat(turns[|turns| - 1].content, blocks);
    if i + 1 < |turns| { assert turns[i].role != turns[i + 1].role; }
    if i + 2 == |turns| {
      assert ResultIds(turns[i + 1].content) + (ResultIds(blocks) + owed') == (ResultIds(turns[i + 1].content) + ResultIds(blocks)) + owed';
    }
  }

  lemma {:induction false} GatherAnswers(turns: seq<Turn>, ms: seq<Message>, carryKey: string, input: string -> string, owed: seq<string>)
    requires Alternates(turns) && Answered(turns, owed) && Paired(ms, owed)
    ensures Answered(Gather(turns, ms, carryKey, input), [])
    decreases |ms|
  {
    if ms != [] {
      var m := ms[0];
      var blocks := BlocksOf(m, carryKey, input);
      BlockIds(m, carryKey, input);
      var owed' := match m case Assistant(_, calls, _) => CallIds(calls) case Tool(_, _) => owed[1..] case _ => owed;
      if m.Tool? { assert owed == [owed[0]] + owed[1..]; } else { assert [] + owed == owed; }
      PushAnswers(turns, RoleOf(m), blocks, owed, owed');
      GatherAlternates(turns, [m], carryKey, input);
      assert Gather(turns, [m], carryKey, input) == Push(turns, RoleOf(m), blocks);
      GatherAnswers(Push(turns, RoleOf(m), blocks), ms[1..], carryKey, input, owed');
    }
  }

  /** The results of a turn open it: its first blocks are exactly they. */
  ghost predicate ResultsOpen(blocks: seq<Block>) {
    Results(blocks) <= blocks
  }

  lemma ResultIdsOf(blocks: seq<Block>)
    ensures ResultIds(Results(blocks)) == ResultIds(blocks) && ResultIds(Others(blocks)) == []
  {
    forall b: Block
      ensures FlatMap(ResultId, AsResult(b)) == ResultId(b)
    {
      FlatMapOne(ResultId, b);
    }
    FlatMapTwice(AsResult, ResultId, ResultId, blocks);
    forall b | b in Others(blocks)
      ensures ResultId(b) == []
    {
      FlatMapFrom(AsOther, blocks, b);
    }
    FlatMapNone(ResultId, Others(blocks));
  }

  lemma SettleIds(turn: Turn)
    ensures ResultIds(Settle(turn).content) == ResultIds(turn.content)
    ensures turn.role == AssistantRole ==> Settle(turn) == turn
    ensures turn.role == UserRole ==> ResultsOpen(Settle(turn).content)
    ensures Settle(turn).role == turn.role
  {
    ResultIdsOf(turn.content);
    IdsConcat(Results(turn.content), Others(turn.content));
    PartitionOrder(turn.content);
    assert ResultIds(turn.content) + [] == ResultIds(turn.content);
  }

  /**
   * When each assistant line's calls are followed by their results, every assistant turn's tool
   * calls are answered, in order, by the results that open the next turn, and by nothing else.
   */
  lemma CallsAnswered(ms: seq<Message>, carryKey: string, input: string -> string)
    requires Paired(ms, [])
    ensures var turns := ToTurns(ms, carryKey, input);
            && Answered(turns, [])
            && (forall i :: 0 <= i < |turns| && turns[i].role == UserRole ==> ResultsOpen(turns[i].content))
  {
    hide FlatMap, Gather, Settle, ResultIds, UseIds, Paired, ResultsOpen;
    GatherAnswers([], ms, carryKey, input, []);
    GatherAlternates([], ms, carryKey, input);
    var gathered := Gather([], ms, carryKey, input);
    var settled := Settled(gathered);
    forall i | 0 <= i < |gathered|
      ensures ResultIds(settled[i].content) == ResultIds(gathered[i].content)
      ensures settled[i].role == gathered[i].role && (gathered[i].role == AssistantRole ==> settled[i] == gathered[i])
      ensures gathered[i].role == UserRole ==> ResultsOpen(settled[i].content)
    {
      SettleIds(gathered[i]);
    }
    SettledAnswers(gathered, settled);
    if settled != [] && settled[0].role == AssistantRole {
      Shifted(settled);
    }
  }

  lemma SettledAnswers(gathered: seq<Turn>, settled: seq<Turn>)
    requires Answered(gathered, []) && |settled| == |gathered|
    requires forall i :: 0 <= i < |gathered| ==> ResultIds(settled[i].content) == ResultIds(gathered[i].content)
    requires forall i :: 0 <= i < |gathered| ==> settled[i].role == gathered[i].role && (gathered[i].role == AssistantRole ==> settled[i] == gathered[i])
    ensures Answered(settled, [])
  {
    forall i | 0 <= i < |settled| && settled[i].role == AssistantRole
      ensures UseIds(settled[i].content) == ResultIdsAt(settled, i + 1) + (if i + 2 >= |settled| then [] else [])
    {
      assert ResultIdsAt(settled, i + 1) == ResultIdsAt(gathered, i + 1);
    }
  }

  lemma Shifted(turns: seq<Turn>)
    requires Answered(turns, [])
    ensures Answered([ELLIPSIS] + turns, []) && ResultsOpen(ELLIPSIS.content)
  {
    var all := [ELLIPSIS] + turns;
    FlatMapOne(ResultId, ELLIPSIS.content[0]);
    FlatMapOne(AsResult, ELLIPSIS.content[0]);
    forall i | 0 <= i < |all| && all[i].role == AssistantRole
      ensures UseIds(all[i].content) == ResultIdsAt(all, i + 1) + (if i + 2 >= |all| then [] else [])
    {
      assert ResultIdsAt(all, i + 1) == ResultIdsAt(turns, i);
    }
  }
}
