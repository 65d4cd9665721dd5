/** What of a loop's lines stands in the request, and where, said line by line. */
module AnthropicRequest {
  import opened Wrappers
  import opened JsStrings
  import opened Lists
  import opened Anthropic

  // ---- What one part shows ----

  /** A picture held in the address itself, by RFC 2397. */
  ghost predicate IsData(url: string, mime: string, data: string) {
    url == "data:" + mime + ";base64," + data && mime != "" && ';' !in mime && ',' !in mime
  }

  predicate SameLetter(c: char, small: char) {
    c == small || ('a' <= small <= 'z' && c as int + 32 == small as int)
  }

  predicate Begins(url: string, scheme: string) {
    |url| >= |scheme| && forall i :: 0 <= i < |scheme| ==> SameLetter(url[i], scheme[i])
  }

  predicate IsWeb(url: string) {
    Begins(url, "http://") || Begins(url, "https://")
  }

  /** A text that is not blank is said as it stands; a picture is shown from its data or its web address; all else is dropped. */
  ghost predicate Shows(part: Part, shown: seq<Block>) {
    match part
    case TextPart(text) =>
      if exists c :: c in text && !IsSpace(c) then shown == [Text(text)] else shown == []
    case ImagePart(url) =>
      if exists mime, data :: IsData(url, mime, data) then exists mime, data :: IsData(url, mime, data) && shown == [Base64Image(mime, data)]
      else if IsWeb(url) then shown == [UrlImage(url)]
      else shown == []
  }

  lemma {:induction false} NameEnds(mime: string, rest: string)
    requires ';' !in mime && ',' !in mime && (rest == "" || rest[0] == ';' || rest[0] == ',')
    ensures NameLength(mime + rest) == |mime|
  {
    if mime == "" {
      assert mime + rest == rest;
    } else {
      assert (mime + rest)[1..] == mime[1..] + rest;
      NameEnds(mime[1..], rest);
    }
  }

  lemma {:induction false} NameHolds(s: string)
    ensures forall c :: c in s[..NameLength(s)] ==> c != ';' && c != ','
  {
    if s != "" && s[0] != ';' && s[0] != ',' {
      NameHolds(s[1..]);
      assert s[..NameLength(s)] == [s[0]] + s[1..][..NameLength(s[1..])];
    }
  }

  lemma DataParts(url: string, mime: string, data: string)
    requires IsData(url, mime, data)
    ensures ImageBlocks(url) == [Base64Image(mime, data)]
  {
    var rest := ";base64," + data;
    assert url[5..] == mime + rest;
    NameEnds(mime, rest);
    var n := |mime|;
    assert url[5 + n..] == rest && url[5..5 + n] == mime && url[5 + n + 8..] == data;
  }

  lemma ImageShows(url: string)
    ensures Shows(ImagePart(url), ImageBlocks(url))
  {
    if mime, data :| IsData(url, mime, data) {
      DataParts(url, mime, data);
    } else {
      var n := if "data:" <= url then NameLength(url[5..]) else 0;
      if n > 0 && ";base64," <= url[5 + n..] {
        NameHolds(url[5..]);
        assert url[5..][..n] == url[5..5 + n];
        assert url == "data:" + url[5..5 + n] + ";base64," + url[5 + n + 8..];
        assert IsData(url, url[5..5 + n], url[5 + n + 8..]);
      }
      WebIs(url, "http://");
      WebIs(url, "https://");
    }
  }

  lemma WebIs(url: string, scheme: string)
    requires forall i :: 0 <= i < |scheme| ==> scheme[i] as int < 128 && !('A' <= scheme[i] <= 'Z')
    ensures StartsWithIgnoringCase(url, scheme) <==> Begins(url, scheme)
  {
  }

  lemma PartShows(part: Part)
    ensures Shows(part, BlocksOfPart(part))
  {
    if part.ImagePart? { ImageShows(part.url); }
  }

  /** What a part shows is settled by the part. */
  lemma ShowsOnce(part: Part, shown: seq<Block>)
    requires Shows(part, shown)
    ensures shown == BlocksOfPart(part)
  {
    PartShows(part);
    if part.ImagePart? {
      if mime, data :| IsData(part.url, mime, data) {
        var m, d :| IsData(part.url, m, d) && shown == [Base64Image(m, d)];
        DataParts(part.url, m, d);
      }
    }
  }

  // ---- What one line says ----

  /** The blocks are what the parts show, one after the other. */
  ghost predicate PartsShow(parts: seq<Part>, pieces: seq<seq<Block>>) {
    |pieces| == |parts| && forall i :: 0 <= i < |parts| ==> Shows(parts[i], pieces[i])
  }

  ghost predicate Says(content: Content, blocks: seq<Block>) {
    match content
    case NoContent => blocks == []
    case Plain(text) => Shows(TextPart(text), blocks)
    case Parts(parts) => exists pieces :: PartsShow(parts, pieces) && blocks == Joined(pieces)
  }

  function Thoughts(m: Message, carryKey: string): seq<Block>
    requires m.Assistant?
  {
    if m.carry.Some? && m.carry.value.key == carryKey && m.calls != [] then
      seq(|m.carry.value.thoughts|, i requires 0 <= i < |m.carry.value.thoughts| => Thought(m.carry.value.thoughts[i]))
    else []
  }

  function Uses(calls: seq<Call>, input: string -> string): seq<Block> {
    seq(|calls|, i requires 0 <= i < |calls| => ToolUse(ToolId(calls[i].id), calls[i].name, input(calls[i].arguments)))
  }

  /**
   * What a line comes to: a system line nothing; the user's what it says; a tool's one result that
   * holds what it says; the Bot's the thoughts it may carry back, what it says, and its calls.
   */
  ghost predicate LineIs(m: Message, carryKey: string, input: string -> string, line: seq<Block>) {
    match m
    case System(_) => line == []
    case User(content) => Says(content, line)
    case Assistant(content, calls, _) => exists said :: Says(content, said) && line == Thoughts(m, carryKey) + said + Uses(calls, input)
    case Tool(content, callId) => exists said :: Says(content, said) && line == [ToolResult(ToolId(callId), said)]
  }

  lemma {:induction false} PartsFlat(parts: seq<Part>) returns (pieces: seq<seq<Block>>)
    ensures PartsShow(parts, pieces) && FlatMap(BlocksOfPart, parts) == Joined(pieces)
  {
    pieces := [];
    if parts != [] {
      var front, last := parts[..|parts| - 1], parts[|parts| - 1];
      var earlier := PartsFlat(front);
      PartShows(last);
      pieces := earlier + [BlocksOfPart(last)];
      assert pieces[..|front|] == earlier && parts == front + [last];
      FlatMapLast(BlocksOfPart, front, last);
    }
  }

  lemma ContentSays(content: Content)
    ensures Says(content, ContentBlocks(content))
  {
    match content
    case NoContent =>
    case Plain(text) => PartShows(TextPart(text));
    case Parts(parts) => var pieces := PartsFlat(parts);
  }

  lemma {:induction false} ThoughtsFlat(thoughts: seq<string>)
    ensures FlatMap(BlocksOfThought, thoughts) == seq(|thoughts|, i requires 0 <= i < |thoughts| => Thought(thoughts[i]))
  {
    if thoughts != [] {
      ThoughtsFlat(thoughts[1..]);
      assert forall i :: 0 < i < |thoughts| ==> thoughts[1..][i - 1] == thoughts[i];
    }
  }

  lemma {:induction false} UsesFlat(calls: seq<Call>, input: string -> string)
    ensures FlatMap(BlocksOfCall(input), calls) == Uses(calls, input)
  {
    if calls != [] {
      UsesFlat(calls[1..], input);
      assert forall i :: 0 < i < |calls| ==> calls[1..][i - 1] == calls[i];
    }
  }

  lemma LineSays(m: Message, carryKey: string, input: string -> string)
    ensures LineIs(m, carryKey, input, BlocksOf(m, carryKey, input))
  {
    if !m.System? { ContentSays(m.content); }
    hide ContentBlocks, Says, FlatMap;
    if m.Assistant? {
      UsesFlat(m.calls, input);
      if m.carry.Some? { ThoughtsFlat(m.carry.value.thoughts); }
      assert BlocksOf(m, carryKey, input) == Thoughts(m, carryKey) + ContentBlocks(m.content) + Uses(m.calls, input);
    }
  }

  // ---- The whole request ----

  function Tagged(role: Role, blocks: seq<Block>): seq<(Role, Block)> {
    seq(|blocks|, i requires 0 <= i < |blocks| => (role, blocks[i]))
  }

  /** Every block of the turns in order, each under its turn's role. */
  function Flow(turns: seq<Turn>): seq<(Role, Block)> {
    if turns == [] then [] else Flow(turns[..|turns| - 1]) + Tagged(turns[|turns| - 1].role, turns[|turns| - 1].content)
  }

  /** Every line's blocks in order, each under the line's role. */
  function Spoken(ms: seq<Message>, lines: seq<seq<Block>>): seq<(Role, Block)>
    requires |lines| == |ms|
  {
    if ms == [] then []
    else Tagged(if ms[0].Assistant? then AssistantRole else UserRole, lines[0]) + Spoken(ms[1..], lines[1..])
  }

  lemma TaggedConcat(role: Role, a: seq<Block>, b: seq<Block>)
    ensures Tagged(role, a + b) == Tagged(role, a) + Tagged(role, b)
  {
  }

  lemma PushFlows(turns: seq<Turn>, role: Role, blocks: seq<Block>)
    ensures Flow(Push(turns, role, blocks)) == Flow(turns) + Tagged(role, blocks)
  {
    var pushed := Push(turns, role, blocks);
    if blocks == [] {
      assert Flow(turns) + Tagged(role, blocks) == Flow(turns);
    } else if turns != [] && turns[|turns| - 1].role == role {
      assert pushed[..|pushed| - 1] == turns[..|turns| - 1];
      TaggedConcat(role, turns[|turns| - 1].content, blocks);
    } else {
      assert pushed[..|turns|] == turns;
    }
  }

  lemma {:induction false} GatherFlows(turns: seq<Turn>, ms: seq<Message>, carryKey: string, input: string -> string) returns (lines: seq<seq<Block>>)
    ensures |lines| == |ms| && forall i :: 0 <= i < |ms| ==> LineIs(ms[i], carryKey, input, lines[i])
    ensures Flow(Gather(turns, ms, carryKey, input)) == Flow(turns) + Spoken(ms, lines)
    decreases |ms|
  {
    hide BlocksOf, Push, Flow, LineIs;
    lines := [];
    if ms == [] {
      assert Flow(turns) + [] == Flow(turns);
    } else {
      var line := BlocksOf(ms[0], carryKey, input);
      LineSays(ms[0], carryKey, input);
      PushFlows(turns, RoleOf(ms[0]), line);
      var rest := GatherFlows(Push(turns, RoleOf(ms[0]), line), ms[1..], carryKey, input);
      lines := [line] + rest;
      assert lines[1..] == rest;
      forall i | 0 <= i < |ms|
        ensures LineIs(ms[i], carryKey, input, lines[i])
      {
        if i > 0 { assert ms[i] == ms[1..][i - 1] && lines[i] == rest[i - 1]; }
      }
    }
  }

  /** No result stands behind a block of another kind. */
  ghost predicate ResultsLead(blocks: seq<Block>) {
    forall i, j :: 0 <= i < j < |blocks| && blocks[j].ToolResult? ==> blocks[i].ToolResult?
  }

  lemma ResultsThenOthers(blocks: seq<Block>)
    ensures ResultsLead(Results(blocks) + Others(blocks))
  {
    var r, o := Results(blocks), Others(blocks);
    forall b | b in r
      ensures b.ToolResult?
    {
      FlatMapFrom(AsResult, blocks, b);
    }
    forall b | b in o
      ensures !b.ToolResult?
    {
      FlatMapFrom(AsOther, blocks, b);
    }
    forall j | 0 <= j < |r + o|
      ensures (r + o)[j].ToolResult? <==> j < |r|
    {
      if j < |r| { assert (r + o)[j] in r; } else { assert (r + o)[j] in o; }
    }
  }

  /** Blocks of one turn brought into the order they are sent in: only a user turn's results move, to the front. */
  ghost predicate SentAs(run: Turn, turn: Turn) {
    && turn.role == run.role
    && (run.role == AssistantRole ==> turn == run)
    && (run.role == UserRole ==> ResultsLead(turn.content) && multiset(turn.content) == multiset(run.content)
                                 && Results(turn.content) == Results(run.content) && Others(turn.content) == Others(run.content))
  }

  lemma SettleSends(run: Turn)
    ensures SentAs(run, Settle(run))
  {
    ResultsThenOthers(run.content);
    SettleMoves(run);
  }

  /**
   * The request is what the lines come to, each under its own role and in order, cut into turns
   * where the role changes; in a user turn the results go first. It opens with the user's ellipsis
   * exactly where the first that is sent is the Bot's.
   */
  lemma RequestIs(ms: seq<Message>, carryKey: string, input: string -> string) returns (lines: seq<seq<Block>>, runs: seq<Turn>)
    ensures |lines| == |ms| && forall i :: 0 <= i < |ms| ==> LineIs(ms[i], carryKey, input, lines[i])
    ensures Alternates(runs) && Flow(runs) == Spoken(ms, lines)
    ensures var turns := ToTurns(ms, carryKey, input);
            var first := if Spoken(ms, lines) != [] && Spoken(ms, lines)[0].0 == AssistantRole then 1 else 0;
            && |turns| == first + |runs| && (first == 1 ==> turns[0] == Turn(UserRole, [Text("\U{2026}")]))
            && forall i :: 0 <= i < |runs| ==> SentAs(runs[i], turns[first + i])
  {
    hide LineIs, Gather, SentAs, Settle, Flow, Spoken;
    runs := Gather([], ms, carryKey, input);
    lines := GatherFlows([], ms, carryKey, input);
    NothingFlows();
    assert [] + Spoken(ms, lines) == Spoken(ms, lines);
    GatherAlternates([], ms, carryKey, input);
    FlowBegins(runs);
    var turns := ToTurns(ms, carryKey, input);
    var settled := Settled(runs);
    forall i | 0 <= i < |runs|
      ensures SentAs(runs[i], settled[i]) && settled[i].role == runs[i].role
    {
      SettleSends(runs[i]);
      SentRole(runs[i], settled[i]);
    }
  }

  lemma SentRole(run: Turn, turn: Turn)
    requires SentAs(run, turn)
    ensures turn.role == run.role
  {
  }

  lemma NothingFlows()
    ensures Flow([]) == []
  {
  }

  lemma {:induction false} FlowBegins(turns: seq<Turn>)
    requires Alternates(turns)
    ensures Flow(turns) == [] <==> turns == []
    ensures turns != [] ==> Flow(turns)[0].0 == turns[0].role
  {
    if |turns| > 1 {
      FlowBegins(turns[..|turns| - 1]);
    } else if |turns| == 1 {
      assert turns[..0] == [];
    }
  }

  // ---- Identifiers ----

  lemma {:induction false} CleanConcat(a: string, b: string)
    ensures CleanId(a + b) == CleanId(a) + CleanId(b)
  {
    if a == "" {
      assert a + b == b;
    } else {
      assert (a + b)[1..] == a[1..] + b;
      CleanConcat(a[1..], b);
    }
  }

  /** An identifier keeps its length in UTF-16 units. */
  lemma {:induction false} CleanIdKeepsLength(id: string)
    ensures |CleanId(id)| == Units(id)
  {
    if id != "" {
      var front, last := id[..|id| - 1], id[|id| - 1];
      CleanIdKeepsLength(front);
      OneClean(last);
      CleanConcat(front, [last]);
      assert front + [last] == id;
    }
  }

  /** And every letter, digit, underscore and hyphen in its place; all else becomes underscores. */
  lemma CleanIdKeepsPlaces(before: string, c: char, after: string)
    ensures var legal := 'a' <= c <= 'z' || 'A' <= c <= 'Z' || '0' <= c <= '9' || c == '_' || c == '-';
            CleanId(before + [c] + after) == CleanId(before) + (if legal then [c] else if Width(c) == 2 then "__" else "_") + CleanId(after)
  {
    OneClean(c);
    CleanConcat(before, [c]);
    CleanConcat(before + [c], after);
  }

  lemma OneClean(c: char)
    ensures CleanId([c]) == (if IsIdChar(c) then [c] else if Width(c) == 2 then "__" else "_")
    ensures |CleanId([c])| == Width(c)
  {
    assert [c][1..] == "";
  }

  /** A tool may be told of a call by an identifier that is clean already; only an empty one is given a name. */
  lemma {:induction false} CleanIdStays(id: string)
    requires forall c :: c in id ==> IsIdChar(c)
    ensures CleanId(id) == id && ToolId(id) == (if id == "" then "call" else id)
  {
    if id != "" {
      CleanIdStays(id[1..]);
      assert id == [id[0]] + id[1..];
    }
  }
}
