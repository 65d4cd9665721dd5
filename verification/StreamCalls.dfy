/** Calls and thoughts put together from events that come in any order, malformed ones included. */
module StreamCalls {
  import opened Wrappers
  import opened Lists
  import opened MessageStream

  /** The numbers under which blocks began; one that came without a number took the count of those. */
  function Known(events: seq<Event>): set<int> {
    if events == [] then {}
    else
      var front, last := events[..|events| - 1], events[|events| - 1];
      if last.BlockStart? then Known(front) + {last.at.GetOr(|Known(front)|)} else Known(front)
  }

  /** The event begins the block numbered `index`. */
  predicate Begins(front: seq<Event>, last: Event, index: int) {
    last.BlockStart? && index == last.at.GetOr(|Known(front)|)
  }

  /** The call that the block numbered `index` is, if it is one: as the last block that began under that number says. */
  function CallAt(events: seq<Event>, index: int): Option<nat> {
    if events == [] then None
    else
      var front, last := events[..|events| - 1], events[|events| - 1];
      if Begins(front, last, index) then (if last.block.kind == ToolUseKind then Some(|CallsBegun(front)|) else None) else CallAt(front, index)
  }

  /** The arguments sent for a call. */
  function PiecesOf(events: seq<Event>, n: nat): seq<string> {
    if events == [] then []
    else
      var front, last := events[..|events| - 1], events[|events| - 1];
      PiecesOf(front, n)
      + (if last.BlockDelta? && last.delta.JsonDelta? && CallAt(front, last.at.GetOr(-1)) == Some(n) then [last.delta.json] else [])
  }

  /** What is read as its arguments: its pieces, and its input, as it began, at every stop before any piece. */
  function ArgumentsOf(events: seq<Event>, n: nat): string {
    if events == [] then ""
    else
      var front, last := events[..|events| - 1], events[|events| - 1];
      ArgumentsOf(front, n)
      + if last.BlockDelta? && last.delta.JsonDelta? && CallAt(front, last.at.GetOr(-1)) == Some(n) then last.delta.json
        else if last.BlockStop? && CallAt(front, last.at.GetOr(-1)) == Some(n) && PiecesOf(front, n) == [] && n < |CallsBegun(front)|
        then CallsBegun(front)[n].input.GetOr("{}")
        else ""
  }

  /** The block numbered `index` as it stands: as it began, with the thinking and the signature sent for it. */
  function BlockAt(events: seq<Event>, index: int): Option<Block> {
    if events == [] then None
    else
      var front, last := events[..|events| - 1], events[|events| - 1];
      var before := BlockAt(front, index);
      if Begins(front, last, index) then Some(last.block)
      else if last.BlockDelta? && last.at.GetOr(-1) == index && before.Some? then
        (match last.delta
         case ThinkingDelta(thinking) => Some(before.value.(thinking := Some(before.value.thinking.GetOr("") + thinking)))
         case SignatureDelta(signature) => Some(before.value.(signature := Some(before.value.signature.GetOr("") + signature)))
         case _ => before)
      else before
  }

  /** The thinking blocks in the order they ended. */
  function Thoughts(events: seq<Event>): seq<Block> {
    if events == [] then []
    else
      var front, last := events[..|events| - 1], events[|events| - 1];
      Thoughts(front)
      + if last.BlockStop? && BlockAt(front, last.at.GetOr(-1)).Some? && BlockAt(front, last.at.GetOr(-1)).value.kind in {ThinkingKind, RedactedKind}
        then [BlockAt(front, last.at.GetOr(-1)).value] else []
  }

  // ---- The stream keeps to these ----

  /** The blocks as they stand. */
  ghost predicate BlocksFollow(s: State, events: seq<Event>) {
    && s.blocks.Keys == Known(events) && s.tools == |CallsBegun(events)|
    && (forall k :: k in s.blocks ==> s.blocks[k].tool == CallAt(events, k) && BlockAt(events, k) == Some(s.blocks[k].block))
    && (forall k :: k !in s.blocks ==> CallAt(events, k) == None && BlockAt(events, k) == None)
  }

  /** No two blocks are one call. */
  ghost predicate OwnCalls(s: State) {
    && (forall k :: k in s.blocks && s.blocks[k].tool.Some? ==> s.blocks[k].tool.value < s.tools)
    && (forall k, k' :: k in s.blocks && k' in s.blocks && k != k' && s.blocks[k].tool.Some? ==> s.blocks[k].tool != s.blocks[k'].tool)
  }

  /** A call's block knows whether pieces came, and what the call began with. */
  ghost predicate CallsFollow(s: State, events: seq<Event>) {
    && (forall k :: k in s.blocks && s.blocks[k].tool.Some? ==>
          var n := s.blocks[k].tool.value;
          n < |CallsBegun(events)| && (s.blocks[k].gotJson <==> PiecesOf(events, n) != []) && s.blocks[k].block.input == CallsBegun(events)[n].input)
    && (forall n: nat :: n >= |CallsBegun(events)| ==> PiecesOf(events, n) == [] && ArgumentsOf(events, n) == "")
  }

  ghost predicate HeardFollows(h: Heard, events: seq<Event>) {
    forall n: nat :: if n < |CallsBegun(events)| then n in h.tools && h.tools[n].arguments == ArgumentsOf(events, n) else n !in h.tools
  }

  ghost predicate Follows(at: (State, Heard), events: seq<Event>) {
    BlocksFollow(at.0, events) && OwnCalls(at.0) && CallsFollow(at.0, events) && HeardFollows(at.1, events) && at.0.thinking == Thoughts(events)
  }

  /** What one event more comes to. */
  lemma OneEventMore(front: seq<Event>, last: Event)
    ensures var events := front + [last];
            && Known(events) == (if last.BlockStart? then Known(front) + {last.at.GetOr(|Known(front)|)} else Known(front))
            && CallsBegun(events) == CallsBegun(front) + (if last.BlockStart? && last.block.kind == ToolUseKind then [last.block] else [])
            && (!last.BlockStop? ==> Thoughts(events) == Thoughts(front))
            && (forall n: nat :: !last.BlockDelta? ==> PiecesOf(events, n) == PiecesOf(front, n))
            && (forall n: nat :: !last.BlockDelta? && !last.BlockStop? ==> ArgumentsOf(events, n) == ArgumentsOf(front, n))
            && (forall k :: !last.BlockStart? ==> CallAt(events, k) == CallAt(front, k))
            && (forall k :: !last.BlockStart? && !last.BlockDelta? ==> BlockAt(events, k) == BlockAt(front, k))
  {
    var events := front + [last];
    assert events[..|events| - 1] == front && events[|events| - 1] == last;
    assert Thoughts(front) + [] == Thoughts(front);
    forall n: nat
      ensures PiecesOf(front, n) + [] == PiecesOf(front, n) && ArgumentsOf(front, n) + "" == ArgumentsOf(front, n)
    {
    }
  }

  // A block begins.

  lemma BeginStep(at: (State, Heard), last: Event, index: int)
    requires last.BlockStart? && index == last.at.GetOr(|at.0.blocks|)
    ensures var call := last.block.kind == ToolUseKind;
            var next := FeedOne(at, last);
            && next.0.blocks == at.0.blocks[index := Kept(last.block, if call then Some(at.0.tools) else None, false)]
            && next.0.tools == at.0.tools + (if call then 1 else 0) && next.0.thinking == at.0.thinking
            && (!call ==> next.1.tools == at.1.tools)
            && (call && at.0.tools !in at.1.tools ==> next.1.tools == at.1.tools[at.0.tools := Made(last.block.id, last.block.name, "")])
  {
    NoMore("");
  }

  lemma BeginFollows(at: (State, Heard), front: seq<Event>, last: Event)
    requires Follows(at, front) && last.BlockStart?
    ensures Follows(FeedOne(at, last), front + [last])
  {
    OneEventMore(front, last);
    assert |at.0.blocks| == |at.0.blocks.Keys|;
    hide Known, CallAt, BlockAt, PiecesOf, ArgumentsOf, Thoughts, CallsBegun, FeedOne;
    var index := last.at.GetOr(|Known(front)|);
    BeginStep(at, last, index);
    BeginBlocks(at.0, FeedOne(at, last).0, front, last, index);
    BeginOwn(at.0, FeedOne(at, last).0, last, index);
    BeginCalls(at.0, FeedOne(at, last).0, front, last, index);
    BeginHeard(at, FeedOne(at, last).1, front, last);
  }

  lemma BeginBlocks(s: State, s': State, front: seq<Event>, last: Event, index: int)
    requires BlocksFollow(s, front) && last.BlockStart? && index == last.at.GetOr(|Known(front)|)
    requires s'.blocks == s.blocks[index := Kept(last.block, if last.block.kind == ToolUseKind then Some(s.tools) else None, false)]
    requires s'.tools == s.tools + (if last.block.kind == ToolUseKind then 1 else 0)
    ensures BlocksFollow(s', front + [last])
  {
    OneEventMore(front, last);
    BlockBegins(front, last);
    hide Known, CallAt, BlockAt, PiecesOf, ArgumentsOf, CallsBegun;
    assert s'.blocks.Keys == s.blocks.Keys + {index};
  }

  lemma BeginOwn(s: State, s': State, last: Event, index: int)
    requires OwnCalls(s) && last.BlockStart?
    requires s'.blocks == s.blocks[index := Kept(last.block, if last.block.kind == ToolUseKind then Some(s.tools) else None, false)]
    requires s'.tools == s.tools + (if last.block.kind == ToolUseKind then 1 else 0)
    ensures OwnCalls(s')
  {
    assert forall k :: k in s'.blocks && k != index ==> k in s.blocks && s'.blocks[k] == s.blocks[k];
  }

  lemma BeginCalls(s: State, s': State, front: seq<Event>, last: Event, index: int)
    requires BlocksFollow(s, front) && OwnCalls(s) && CallsFollow(s, front) && last.BlockStart?
    requires s'.blocks == s.blocks[index := Kept(last.block, if last.block.kind == ToolUseKind then Some(s.tools) else None, false)]
    ensures CallsFollow(s', front + [last])
  {
    OneEventMore(front, last);
    hide Known, CallAt, BlockAt, PiecesOf, ArgumentsOf, CallsBegun;
  }

  lemma BeginHeard(at: (State, Heard), h': Heard, front: seq<Event>, last: Event)
    requires Follows(at, front) && last.BlockStart?
    requires last.block.kind != ToolUseKind ==> h'.tools == at.1.tools
    requires last.block.kind == ToolUseKind && at.0.tools !in at.1.tools ==> h'.tools == at.1.tools[at.0.tools := Made(last.block.id, last.block.name, "")]
    ensures HeardFollows(h', front + [last])
  {
    OneEventMore(front, last);
    hide Known, CallAt, BlockAt, PiecesOf, ArgumentsOf, CallsBegun;
  }

  lemma BlockBegins(front: seq<Event>, last: Event)
    requires last.BlockStart?
    ensures forall k :: CallAt(front + [last], k) ==
                        if k == last.at.GetOr(|Known(front)|) then (if last.block.kind == ToolUseKind then Some(|CallsBegun(front)|) else None) else CallAt(front, k)
    ensures forall k :: BlockAt(front + [last], k) == if k == last.at.GetOr(|Known(front)|) then Some(last.block) else BlockAt(front, k)
  {
    var events := front + [last];
    assert events[..|events| - 1] == front && events[|events| - 1] == last;
  }

  // A piece comes.

  /** A block's thinking or signature grows; nothing else of it changes. */
  function Grown(block: Block, delta: Delta): Block {
    match delta
    case ThinkingDelta(thinking) => block.(thinking := Some(block.thinking.GetOr("") + thinking))
    case SignatureDelta(signature) => block.(signature := Some(block.signature.GetOr("") + signature))
    case _ => block
  }

  lemma PieceComes(front: seq<Event>, last: Event)
    requires last.BlockDelta?
    ensures var events, index := front + [last], last.at.GetOr(-1);
            && (forall k :: BlockAt(events, k) ==
                  if k == index && BlockAt(front, k).Some? then Some(Grown(BlockAt(front, k).value, last.delta)) else BlockAt(front, k))
            && (forall n: nat :: PiecesOf(events, n) ==
                  PiecesOf(front, n) + (if last.delta.JsonDelta? && CallAt(front, index) == Some(n) then [last.delta.json] else []))
            && (forall n: nat :: ArgumentsOf(events, n) ==
                  ArgumentsOf(front, n) + (if last.delta.JsonDelta? && CallAt(front, index) == Some(n) then last.delta.json else ""))
  {
    var events := front + [last];
    assert events[..|events| - 1] == front && events[|events| - 1] == last;
  }

  lemma PieceStep(at: (State, Heard), last: Event, index: int)
    requires last.BlockDelta? && index == last.at.GetOr(-1)
    ensures var next := FeedOne(at, last);
            var json := last.delta.JsonDelta? && index in at.0.blocks && at.0.blocks[index].tool.Some?;
            && next.0.tools == at.0.tools && next.0.thinking == at.0.thinking
            && next.0.blocks == (if index !in at.0.blocks then at.0.blocks
                                 else at.0.blocks[index := at.0.blocks[index].(block := Grown(at.0.blocks[index].block, last.delta), gotJson := at.0.blocks[index].gotJson || json)])
            && (!json ==> next.1.tools == at.1.tools)
            && (json && at.0.blocks[index].tool.value in at.1.tools ==>
                var n := at.0.blocks[index].tool.value;
                next.1.tools == at.1.tools[n := at.1.tools[n].(arguments := at.1.tools[n].arguments + last.delta.json)])
  {
    if index in at.0.blocks { assert at.0.blocks[index := at.0.blocks[index]] == at.0.blocks; }
  }

  lemma PieceFollows(at: (State, Heard), front: seq<Event>, last: Event)
    requires Follows(at, front) && last.BlockDelta?
    ensures Follows(FeedOne(at, last), front + [last])
  {
    OneEventMore(front, last);
    hide Known, CallAt, BlockAt, PiecesOf, ArgumentsOf, Thoughts, CallsBegun, FeedOne;
    var index := last.at.GetOr(-1);
    PieceStep(at, last, index);
    PieceBlocks(at.0, FeedOne(at, last).0, front, last, index);
    PieceCalls(at.0, FeedOne(at, last).0, front, last, index);
    PieceHeard(at, FeedOne(at, last).1, front, last, index);
  }

  lemma PieceBlocks(s: State, s': State, front: seq<Event>, last: Event, index: int)
    requires BlocksFollow(s, front) && last.BlockDelta? && index == last.at.GetOr(-1) && s'.tools == s.tools
    requires index !in s.blocks ==> s'.blocks == s.blocks
    requires index in s.blocks ==> exists got :: s'.blocks == s.blocks[index := s.blocks[index].(block := Grown(s.blocks[index].block, last.delta), gotJson := got)]
    ensures BlocksFollow(s', front + [last])
  {
    OneEventMore(front, last);
    PieceComes(front, last);
    hide Known, CallAt, BlockAt, PiecesOf, ArgumentsOf, CallsBegun, Grown;
    assert s'.blocks.Keys == s.blocks.Keys;
  }

  lemma PieceCalls(s: State, s': State, front: seq<Event>, last: Event, index: int)
    requires BlocksFollow(s, front) && OwnCalls(s) && CallsFollow(s, front) && last.BlockDelta? && index == last.at.GetOr(-1)
    requires index !in s.blocks ==> s'.blocks == s.blocks
    requires index in s.blocks ==>
               s'.blocks == s.blocks[index := s.blocks[index].(block := Grown(s.blocks[index].block, last.delta),
                                                                gotJson := s.blocks[index].gotJson || (last.delta.JsonDelta? && s.blocks[index].tool.Some?))]
    ensures CallsFollow(s', front + [last])
  {
    OneEventMore(front, last);
    hide Known, CallAt, BlockAt, PiecesOf, ArgumentsOf, CallsBegun, BlocksFollow;
    var events := front + [last];
    forall k | k in s'.blocks && s'.blocks[k].tool.Some?
      ensures var n := s'.blocks[k].tool.value;
              n < |CallsBegun(events)| && (s'.blocks[k].gotJson <==> PiecesOf(events, n) != []) && s'.blocks[k].block.input == CallsBegun(events)[n].input
    {
      PieceCall(s, s', front, last, index, k);
    }
    forall n: nat | n >= |CallsBegun(events)|
      ensures PiecesOf(events, n) == [] && ArgumentsOf(events, n) == ""
    {
      PieceOfNone(s, front, last, index, n);
    }
  }

  lemma PieceOfNone(s: State, front: seq<Event>, last: Event, index: int, n: nat)
    requires BlocksFollow(s, front) && OwnCalls(s) && CallsFollow(s, front) && last.BlockDelta? && index == last.at.GetOr(-1)
    requires n >= |CallsBegun(front)|
    ensures PiecesOf(front + [last], n) == [] && ArgumentsOf(front + [last], n) == ""
  {
    PieceComes(front, last);
    hide Known, CallAt, BlockAt, PiecesOf, ArgumentsOf, CallsBegun;
    assert CallAt(front, index) != Some(n);
  }

  lemma PieceCall(s: State, s': State, front: seq<Event>, last: Event, index: int, k: int)
    requires BlocksFollow(s, front) && OwnCalls(s) && CallsFollow(s, front) && last.BlockDelta? && index == last.at.GetOr(-1)
    requires k in s.blocks && s.blocks[k].tool.Some? && k in s'.blocks && s'.blocks[k].tool == s.blocks[k].tool
    requires k != index ==> s'.blocks[k] == s.blocks[k]
    requires k == index ==> s'.blocks[k].block.input == s.blocks[k].block.input && s'.blocks[k].gotJson == (s.blocks[k].gotJson || last.delta.JsonDelta?)
    ensures var n, events := s'.blocks[k].tool.value, front + [last];
            n < |CallsBegun(events)| && (s'.blocks[k].gotJson <==> PiecesOf(events, n) != []) && s'.blocks[k].block.input == CallsBegun(events)[n].input
  {
    OneEventMore(front, last);
    PieceComes(front, last);
    hide Known, CallAt, BlockAt, PiecesOf, ArgumentsOf, CallsBegun;
    var n := s.blocks[k].tool.value;
    assert PiecesOf(front, n) + [] == PiecesOf(front, n);
    assert CallAt(front, index) == Some(n) <==> k == index;
  }

  lemma PieceHeard(at: (State, Heard), h': Heard, front: seq<Event>, last: Event, index: int)
    requires Follows(at, front) && last.BlockDelta? && index == last.at.GetOr(-1)
    requires var json := last.delta.JsonDelta? && index in at.0.blocks && at.0.blocks[index].tool.Some?;
             && (!json ==> h'.tools == at.1.tools)
             && (json && at.0.blocks[index].tool.value in at.1.tools ==>
                 var n := at.0.blocks[index].tool.value;
                 h'.tools == at.1.tools[n := at.1.tools[n].(arguments := at.1.tools[n].arguments + last.delta.json)])
    ensures HeardFollows(h', front + [last])
  {
    OneEventMore(front, last);
    PieceComes(front, last);
    hide Known, CallAt, BlockAt, PiecesOf, ArgumentsOf, CallsBegun, Thoughts;
    assert forall n: nat :: ArgumentsOf(front, n) + "" == ArgumentsOf(front, n);
  }

  // A block stops.

  lemma BlockStops(front: seq<Event>, last: Event)
    requires last.BlockStop?
    ensures var events, index := front + [last], last.at.GetOr(-1);
            && (forall n: nat :: ArgumentsOf(events, n) ==
                  ArgumentsOf(front, n)
                  + if CallAt(front, index) == Some(n) && PiecesOf(front, n) == [] && n < |CallsBegun(front)|
                    then CallsBegun(front)[n].input.GetOr("{}") else "")
            && Thoughts(events) ==
               Thoughts(front) + (if BlockAt(front, index).Some? && BlockAt(front, index).value.kind in {ThinkingKind, RedactedKind}
                                  then [BlockAt(front, index).value] else [])
  {
    var events := front + [last];
    assert events[..|events| - 1] == front && events[|events| - 1] == last;
  }

  lemma StopStep(at: (State, Heard), last: Event, index: int)
    requires last.BlockStop? && index == last.at.GetOr(-1)
    ensures var next := FeedOne(at, last);
            && next.0.tools == at.0.tools && next.0.blocks == at.0.blocks
            && next.0.thinking == at.0.thinking + (if index in at.0.blocks && at.0.blocks[index].block.kind in {ThinkingKind, RedactedKind} then [at.0.blocks[index].block] else [])
            && (if index in at.0.blocks && at.0.blocks[index].tool.Some? && !at.0.blocks[index].gotJson then
                  var n := at.0.blocks[index].tool.value;
                  n in at.1.tools ==>
                    next.1.tools == at.1.tools[n := at.1.tools[n].(arguments := at.1.tools[n].arguments + at.0.blocks[index].block.input.GetOr("{}"))]
                else next.1.tools == at.1.tools)
  {
  }

  lemma StopFollows(at: (State, Heard), front: seq<Event>, last: Event)
    requires Follows(at, front) && last.BlockStop?
    ensures Follows(FeedOne(at, last), front + [last])
  {
    hide Known, CallAt, BlockAt, PiecesOf, ArgumentsOf, Thoughts, CallsBegun, FeedOne, BlocksFollow, CallsFollow, HeardFollows, OwnCalls;
    var index, next := last.at.GetOr(-1), FeedOne(at, last);
    StopStep(at, last, index);
    StopBlocks(at.0, next.0, front, last);
    StopCalls(at.0, next.0, front, last);
    StopThoughts(at.0, front, last, index);
    StopHeard(at, next.1, front, last, index);
  }

  lemma StopBlocks(s: State, s': State, front: seq<Event>, last: Event)
    requires BlocksFollow(s, front) && OwnCalls(s) && last.BlockStop? && s'.blocks == s.blocks && s'.tools == s.tools
    ensures BlocksFollow(s', front + [last]) && OwnCalls(s')
  {
    OneEventMore(front, last);
    assert CallsBegun(front) + [] == CallsBegun(front);
    hide Known, CallAt, BlockAt, CallsBegun;
  }

  lemma StopThoughts(s: State, front: seq<Event>, last: Event, index: int)
    requires BlocksFollow(s, front) && last.BlockStop? && index == last.at.GetOr(-1)
    ensures Thoughts(front + [last]) ==
            Thoughts(front) + (if index in s.blocks && s.blocks[index].block.kind in {ThinkingKind, RedactedKind} then [s.blocks[index].block] else [])
  {
    BlockStops(front, last);
    hide Thoughts, BlockAt, CallAt, Known, CallsBegun;
  }

  lemma StopCalls(s: State, s': State, front: seq<Event>, last: Event)
    requires BlocksFollow(s, front) && CallsFollow(s, front) && last.BlockStop? && s'.blocks == s.blocks
    ensures CallsFollow(s', front + [last])
  {
    OneEventMore(front, last);
    BlockStops(front, last);
    hide Known, CallAt, BlockAt, PiecesOf, ArgumentsOf, Thoughts, CallsBegun;
    assert forall n: nat :: ArgumentsOf(front, n) + "" == ArgumentsOf(front, n);
  }

  lemma StopHeard(at: (State, Heard), h': Heard, front: seq<Event>, last: Event, index: int)
    requires Follows(at, front) && last.BlockStop? && index == last.at.GetOr(-1)
    requires if index in at.0.blocks && at.0.blocks[index].tool.Some? && !at.0.blocks[index].gotJson then
               var n := at.0.blocks[index].tool.value;
               n in at.1.tools ==> h'.tools == at.1.tools[n := at.1.tools[n].(arguments := at.1.tools[n].arguments + at.0.blocks[index].block.input.GetOr("{}"))]
             else h'.tools == at.1.tools
    ensures HeardFollows(h', front + [last])
  {
    OneEventMore(front, last);
    BlockStops(front, last);
    hide Known, CallAt, BlockAt, PiecesOf, ArgumentsOf, CallsBegun, Thoughts;
    forall n: nat
      ensures if n < |CallsBegun(front)| then n in h'.tools && h'.tools[n].arguments == ArgumentsOf(front + [last], n) else n !in h'.tools
    {
      NoMore(ArgumentsOf(front, n));
    }
  }

  // All else.

  lemma ElseStep(at: (State, Heard), last: Event)
    requires !last.BlockStart? && !last.BlockDelta? && !last.BlockStop?
    ensures var next := FeedOne(at, last);
            next.0.blocks == at.0.blocks && next.0.tools == at.0.tools && next.0.thinking == at.0.thinking && next.1.tools == at.1.tools
  {
    hide Finish, MapUsage, Merged;
  }

  lemma ElseFollows(at: (State, Heard), front: seq<Event>, last: Event)
    requires Follows(at, front) && !last.BlockStart? && !last.BlockDelta? && !last.BlockStop?
    ensures Follows(FeedOne(at, last), front + [last])
  {
    hide FeedOne, BlocksFollow, CallsFollow, HeardFollows, OwnCalls, Thoughts, Known, CallAt, BlockAt, CallsBegun;
    OneEventMore(front, last);
    ElseStep(at, last);
    var next := FeedOne(at, last);
    ElseCalls(at.0, next.0, at.1, next.1, front, last);
  }

  lemma ElseCalls(s: State, s': State, h: Heard, h': Heard, front: seq<Event>, last: Event)
    requires BlocksFollow(s, front) && OwnCalls(s) && CallsFollow(s, front) && HeardFollows(h, front)
    requires !last.BlockStart? && !last.BlockDelta? && !last.BlockStop?
    requires s'.blocks == s.blocks && s'.tools == s.tools && h'.tools == h.tools
    ensures BlocksFollow(s', front + [last]) && OwnCalls(s') && CallsFollow(s', front + [last]) && HeardFollows(h', front + [last])
  {
    hide BlocksFollow, CallsFollow, HeardFollows;
    ElseBlocks(s, s', front, last);
    ElsePieces(s, s', h, h', front, last);
  }

  lemma ElseBlocks(s: State, s': State, front: seq<Event>, last: Event)
    requires BlocksFollow(s, front) && !last.BlockStart? && !last.BlockDelta? && !last.BlockStop? && s'.blocks == s.blocks && s'.tools == s.tools
    ensures BlocksFollow(s', front + [last])
  {
    OneEventMore(front, last);
    assert CallsBegun(front) + [] == CallsBegun(front);
    hide Known, CallAt, BlockAt, PiecesOf, ArgumentsOf, Thoughts, CallsBegun;
  }

  lemma ElsePieces(s: State, s': State, h: Heard, h': Heard, front: seq<Event>, last: Event)
    requires CallsFollow(s, front) && HeardFollows(h, front)
    requires !last.BlockStart? && !last.BlockDelta? && !last.BlockStop? && s'.blocks == s.blocks && h'.tools == h.tools
    ensures CallsFollow(s', front + [last]) && HeardFollows(h', front + [last])
  {
    OneEventMore(front, last);
    assert CallsBegun(front) + [] == CallsBegun(front);
    hide Known, CallAt, BlockAt, PiecesOf, ArgumentsOf, Thoughts, CallsBegun;
  }

  lemma StartFollows()
    ensures Follows(BEGINNING, [])
  {
  }

  lemma {:induction false} EventsFollow(events: seq<Event>)
    ensures Follows(FeedAll(BEGINNING, events), events)
  {
    hide Follows, FeedOne;
    if events == [] {
      StartFollows();
    } else {
      var front, last := events[..|events| - 1], events[|events| - 1];
      EventsFollow(front);
      assert front + [last] == events;
      match last
      case BlockStart(_, _) => BeginFollows(FeedAll(BEGINNING, front), front, last);
      case BlockDelta(_, _) => PieceFollows(FeedAll(BEGINNING, front), front, last);
      case BlockStop(_) => StopFollows(FeedAll(BEGINNING, front), front, last);
      case _ => ElseFollows(FeedAll(BEGINNING, front), front, last);
    }
  }

  /**
   * Whatever events come, blocks mixed, numbers missing or used again: each call is heard with the
   * pieces sent to the block it began in, in order, or with its input where it stopped without any;
   * and the thoughts are the thinking blocks as they stood when they stopped, in that order.
   */
  lemma MixedIsHeard(events: seq<Event>)
    ensures var at := FeedAll(BEGINNING, events);
            && at.0.thinking == Thoughts(events)
            && forall n: nat :: n < |CallsBegun(events)| ==> n in at.1.tools && at.1.tools[n].arguments == ArgumentsOf(events, n)
  {
    EventsFollow(events);
  }
}
