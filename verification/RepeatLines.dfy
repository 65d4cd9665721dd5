/**
 * How a reply's text falls into sentences: the character machine that watches it stream, and a
 * reference that looks at it line by line.
 *
 * The machine sees one character at a time and must not look ahead: whether a line opens a fence
 * shows only at its third character, and whether a full stop ends a sentence only at the character
 * after it. The reference has the whole line in hand: it strips leading blanks, reads the first
 * three characters, and splits what is left. They close the same sentences on every text.
 */
module RepeatLines {
  import opened JsStrings
  import opened RepeatHistory

  predicate IsBlank(c: char) {
    c == ' ' || c == '\t'
  }

  predicate EndsSentence(c: char) {
    c in {'\U{3002}', '\U{FF01}', '\U{FF1F}', '!', '?', '\U{FF1B}', ';', '\U{2026}'}
  }

  // ---- The machine ----

  datatype Line = AtStart | MaybeFence | Prose | Skip | Fence

  datatype Machine = Machine(sentence: string, head: string, line: Line, inFence: bool, dot: bool)

  const INITIAL := Machine("", "", AtStart, false, false)

  /** A step's new state, and the non-empty sentences it closed. */
  datatype Out = Out(m: Machine, closed: seq<string>)

  function Close(m: Machine): Out {
    Out(m.(sentence := "", dot := false), if m.sentence == "" then [] else [m.sentence])
  }

  /** One character of prose. */
  function ProseChar(m: Machine, ch: char): Out {
    if m.dot && IsBlank(ch) then Close(m)
    else
      var longer := m.(dot := false, sentence := m.sentence + [ch]);
      if EndsSentence(ch) then Close(longer)
      else if ch == '.' then Out(longer.(dot := true), [])
      else if Units(longer.sentence) >= REPEAT_WINDOW_CHARS then Close(longer)
      else Out(longer, [])
  }

  function ProseText(m: Machine, text: string): Out
    decreases |text|
  {
    if text == "" then Out(m, [])
    else
      var first := ProseChar(m, text[0]);
      var rest := ProseText(first.m, text[1..]);
      Out(rest.m, first.closed + rest.closed)
  }

  /** The end of a line: a head too short to be a fence was prose after all. */
  function NewLine(m: Machine): Out {
    var flipped := if m.line == Fence then m.(inFence := !m.inFence) else m;
    var read := if m.line == MaybeFence && !m.inFence then ProseText(flipped, m.head) else Out(flipped, []);
    var shut := Close(read.m);
    Out(shut.m.(line := AtStart, head := ""), read.closed + shut.closed)
  }

  predicate IsFence(head: string) {
    head == "```" || head == "~~~"
  }

  function FenceChar(m: Machine, ch: char): Out {
    var head := m.head + [ch];
    if Units(head) < 3 then Out(m.(head := head), [])
    else if IsFence(head) then Out(m.(head := head, line := Fence), [])
    else if m.inFence then Out(m.(head := head, line := Skip), [])
    else ProseText(m.(head := "", line := Prose), head)
  }

  function Take(m: Machine, ch: char): Out {
    if ch == '\n' then NewLine(m)
    else if m.line == AtStart && IsBlank(ch) then Out(m, [])
    else
      var line := if m.line != AtStart then m.line
                  else if ch == '`' || ch == '~' then MaybeFence
                  else if m.inFence || ch == '|' then Skip else Prose;
      var on := m.(line := line);
      if line == MaybeFence then FenceChar(on, ch)
      else if line == Prose then ProseChar(on, ch)
      else Out(on, [])
  }

  function TakeAll(m: Machine, text: string): Out
    decreases |text|
  {
    if text == "" then Out(m, [])
    else
      var rest := TakeAll(m, text[..|text| - 1]);
      var last := Take(rest.m, text[|text| - 1]);
      Out(last.m, rest.closed + last.closed)
  }

  /** `end`: the sentence still open when the reply ends. */
  function End(m: Machine): Out {
    var read := if m.line == MaybeFence && !m.inFence then ProseText(m, m.head) else Out(m, []);
    var shut := Close(read.m);
    Out(shut.m, read.closed + shut.closed)
  }

  // ---- The reference ----

  /** A sentence may end after the first `n` characters of what is left of a line. */
  predicate EndsAt(line: string, n: nat)
    requires 1 <= n <= |line|
  {
    var c := line[n - 1];
    || n == |line|
    || EndsSentence(c)
    || (c == '.' && IsBlank(line[n]))
    || (c != '.' && Units(line[..n]) >= REPEAT_WINDOW_CHARS)
  }

  function FirstEnd(line: string, from: nat): (n: nat)
    requires 1 <= from <= |line|
    ensures from <= n <= |line| && EndsAt(line, n)
    ensures forall k :: from <= k < n ==> !EndsAt(line, k)
    decreases |line| - from
  {
    if EndsAt(line, from) then from else FirstEnd(line, from + 1)
  }

  /** The blank after a full stop belongs to neither sentence. */
  function Behind(line: string, n: nat): (rest: string)
    requires 1 <= n <= |line|
    ensures |rest| < |line|
  {
    if line[n - 1] == '.' && n < |line| then line[n + 1..] else line[n..]
  }

  function Split(line: string): seq<string>
    decreases |line|
  {
    if line == "" then [] else var n := FirstEnd(line, 1); [line[..n]] + Split(Behind(line, n))
  }

  function Stripped(line: string): string {
    if line != "" && IsBlank(line[0]) then Stripped(line[1..]) else line
  }

  predicate OpensFence(body: string) {
    "```" <= body || "~~~" <= body
  }

  /** The sentences of one line without its leading blanks. */
  function LineSentences(body: string, inFence: bool): seq<string> {
    if OpensFence(body) || inFence || (body != "" && body[0] == '|') then [] else Split(body)
  }

  function LineLength(text: string): (n: nat)
    ensures n <= |text| && '\n' !in text[..n]
    ensures n < |text| ==> text[n] == '\n'
  {
    if text == "" || text[0] == '\n' then 0
    else
      var rest := LineLength(text[1..]);
      assert text[..rest + 1] == [text[0]] + text[1..][..rest];
      rest + 1
  }

  /** The sentences of a text, line by line; a fence line opens or shuts a fenced block. */
  function Sentences(text: string, inFence: bool): seq<string>
    decreases |text|
  {
    var n := LineLength(text);
    var body := Stripped(text[..n]);
    if n == |text| then LineSentences(body, inFence)
    else LineSentences(body, inFence) + Sentences(text[n + 1..], inFence != OpensFence(body))
  }

  // ---- The machine closes what the reference says ----

  /** Mid-sentence: nothing read so far ended it, though a full stop may yet. */
  predicate Pending(s: string, dot: bool, rest: string) {
    && (forall n :: 1 <= n < |s| ==> !EndsAt(s + rest, n))
    && dot == (s != "" && s[|s| - 1] == '.')
    && (s != "" && !dot && rest != "" ==> !EndsAt(s + rest, |s|))
  }

  lemma {:induction false} FirstEndIs(line: string, from: nat, n: nat)
    requires 1 <= from <= n <= |line| && EndsAt(line, n)
    requires forall k :: from <= k < n ==> !EndsAt(line, k)
    ensures FirstEnd(line, from) == n
    decreases n - from
  {
    if from < n { FirstEndIs(line, from + 1, n); }
  }

  /** The next sentence of the line is what was read, when it ends there. */
  lemma SplitHere(s: string, rest: string)
    requires s != "" && EndsAt(s + rest, |s|)
    requires forall n :: 1 <= n < |s| ==> !EndsAt(s + rest, n)
    ensures Split(s + rest) == [s] + Split(Behind(s + rest, |s|))
    ensures s[|s| - 1] != '.' || rest == "" ==> Behind(s + rest, |s|) == rest
    ensures s[|s| - 1] == '.' && rest != "" ==> Behind(s + rest, |s|) == rest[1..]
  {
    FirstEndIs(s + rest, 1, |s|);
    assert (s + rest)[..|s|] == s && (s + rest)[|s|..] == rest;
    if rest != "" { assert (s + rest)[|s| + 1..] == rest[1..]; }
  }

  /** All that reading a text as prose closes, its end shut. */
  function ProseClosed(m: Machine, text: string): seq<string> {
    ProseText(m, text).closed + Close(ProseText(m, text).m).closed
  }

  lemma ProseClosedStep(m: Machine, ch: char, tail: string)
    ensures ProseClosed(m, [ch] + tail) == ProseChar(m, ch).closed + ProseClosed(ProseChar(m, ch).m, tail)
  {
    hide ProseChar, Close;
    assert ([ch] + tail)[1..] == tail;
  }

  lemma {:induction false} ProseTextKeeps(m: Machine, text: string)
    ensures var read := ProseText(m, text).m; read.line == m.line && read.inFence == m.inFence && read.head == m.head
    decreases |text|
  {
    if text != "" { ProseTextKeeps(ProseChar(m, text[0]).m, text[1..]); }
  }

  /** Reading the rest of a line as prose, then shutting it, closes the sentences of the whole line. */
  lemma {:induction false} ProseSplits(m: Machine, rest: string)
    requires Pending(m.sentence, m.dot, rest)
    ensures ProseClosed(m, rest) == Split(m.sentence + rest)
    decreases |rest|
  {
    hide Pending, EndsAt, Split, Units, EndsSentence, IsBlank, ProseClosed, Behind;
    var s := m.sentence;
    if rest == "" {
      LineEnds(s, m.dot);
      NothingMore(m);
    } else {
      var ch, tail := rest[0], rest[1..];
      assert rest == [ch] + tail;
      ProseClosedStep(m, ch, tail);
      var next := ProseChar(m, ch).m;
      if m.dot && IsBlank(ch) {
        DotEnds(s, ch, tail);
        PendingNone(tail);
        ProseSplits(next, tail);
        assert "" + tail == tail;
      } else {
        StillPending(s, m.dot, ch, tail);
        if EndsSentence(ch) || (ch != '.' && Units(s + [ch]) >= REPEAT_WINDOW_CHARS) {
          EnderEnds(s, ch, tail);
          PendingNone(tail);
          ProseSplits(next, tail);
          assert "" + tail == tail;
        } else {
          ProseSplits(next, tail);
        }
      }
    }
  }

  lemma NothingMore(m: Machine)
    ensures ProseClosed(m, "") == if m.sentence == "" then [] else [m.sentence]
  {
  }

  /** A sentence that its last character ends. */
  lemma EnderEnds(s: string, ch: char, tail: string)
    requires EndsSentence(ch) || (ch != '.' && Units(s + [ch]) >= REPEAT_WINDOW_CHARS)
    requires forall n :: 1 <= n <= |s| ==> !EndsAt((s + [ch]) + tail, n)
    requires EndsAt((s + [ch]) + tail, |s| + 1)
    ensures Split((s + [ch]) + tail) == [s + [ch]] + Split(tail)
  {
    hide EndsAt, Split;
    NotADot(ch);
    SplitHere(s + [ch], tail);
  }

  lemma NotADot(ch: char)
    ensures EndsSentence(ch) ==> ch != '.'
  {
  }

  lemma LineEnds(s: string, dot: bool)
    requires Pending(s, dot, "")
    ensures Split(s + "") == if s == "" then [] else [s]
  {
    assert s + "" == s;
    if s != "" { SplitHere(s, ""); }
  }

  lemma DotEnds(s: string, ch: char, tail: string)
    requires Pending(s, true, [ch] + tail) && IsBlank(ch)
    ensures s != "" && Split(s + ([ch] + tail)) == [s] + Split(tail)
  {
    var rest := [ch] + tail;
    assert (s + rest)[|s|] == ch;
    SplitHere(s, rest);
    assert rest[1..] == tail;
  }

  lemma PendingNone(rest: string)
    ensures Pending("", false, rest)
  {
  }

  /** One more character of a sentence that goes on. */
  lemma StillPending(s: string, dot: bool, ch: char, tail: string)
    requires Pending(s, dot, [ch] + tail) && !(dot && IsBlank(ch))
    ensures s + ([ch] + tail) == (s + [ch]) + tail
    ensures forall n :: 1 <= n <= |s| ==> !EndsAt((s + [ch]) + tail, n)
    ensures EndsSentence(ch) || (ch != '.' && Units(s + [ch]) >= REPEAT_WINDOW_CHARS) ==> EndsAt((s + [ch]) + tail, |s| + 1)
    ensures !EndsSentence(ch) && (ch == '.' || Units(s + [ch]) < REPEAT_WINDOW_CHARS) ==> Pending(s + [ch], ch == '.', tail)
  {
    var line := (s + [ch]) + tail;
    assert line == s + ([ch] + tail);
    assert line[..|s| + 1] == s + [ch];
    assert line[|s|] == ch;
    if s != "" {
      assert line[..|s|] == s;
      assert !EndsAt(line, |s|) by { DotGoesOn(s, dot, ch, tail); }
    }
  }

  lemma DotGoesOn(s: string, dot: bool, ch: char, tail: string)
    requires s != "" && Pending(s, dot, [ch] + tail) && !(dot && IsBlank(ch))
    ensures !EndsAt(s + ([ch] + tail), |s|)
  {
    var line := s + ([ch] + tail);
    assert line[|s| - 1] == s[|s| - 1] && line[|s|] == ch;
    if dot { assert !EndsSentence('.'); }
  }

  predicate LineStart(m: Machine) {
    m.line == AtStart && m.sentence == "" && m.head == "" && !m.dot
  }

  lemma {:induction false} TakeAllConcat(m: Machine, a: string, b: string)
    ensures TakeAll(m, a + b) == Out(TakeAll(TakeAll(m, a).m, b).m, TakeAll(m, a).closed + TakeAll(TakeAll(m, a).m, b).closed)
  {
    hide Take;
    if b == "" {
      assert a + b == a;
      assert TakeAll(m, a).closed + [] == TakeAll(m, a).closed;
    } else {
      assert (a + b)[..|a + b| - 1] == a + b[..|b| - 1];
      TakeAllConcat(m, a, b[..|b| - 1]);
    }
  }

  lemma TakeFirst(m: Machine, ch: char, rest: string)
    ensures TakeAll(m, [ch] + rest) == Out(TakeAll(Take(m, ch).m, rest).m, Take(m, ch).closed + TakeAll(Take(m, ch).m, rest).closed)
  {
    hide Take;
    TakeAllConcat(m, [ch], rest);
    assert [ch][..0] == "";
    assert TakeAll(m, [ch]) == Out(Take(m, ch).m, [] + Take(m, ch).closed);
  }

  /** Leading blanks pass without a trace. */
  lemma {:induction false} BlanksPass(m: Machine, line: string)
    requires LineStart(m) && '\n' !in line
    ensures TakeAll(m, line) == TakeAll(m, Stripped(line))
  {
    if line != "" && IsBlank(line[0]) {
      TakeFirst(m, line[0], line[1..]);
      assert line == [line[0]] + line[1..];
      BlanksPass(m, line[1..]);
    }
  }

  /** A line shown to be skipped, or a fence, stays so. */
  lemma {:induction false} Ignored(m: Machine, rest: string)
    requires (m.line == Skip || m.line == Fence) && '\n' !in rest
    ensures TakeAll(m, rest) == Out(m, [])
  {
    if rest != "" {
      Ignored(m, rest[..|rest| - 1]);
    }
  }

  /** A line shown to be prose is read as prose. */
  lemma {:induction false} ReadAsProse(m: Machine, rest: string)
    requires m.line == Prose && '\n' !in rest
    ensures TakeAll(m, rest) == ProseText(m, rest)
    decreases |rest|
  {
    hide ProseChar;
    if rest != "" {
      TakeFirst(m, rest[0], rest[1..]);
      assert rest == [rest[0]] + rest[1..];
      ProseKeeps(m, rest[0]);
      ReadAsProse(Take(m, rest[0]).m, rest[1..]);
    }
  }

  lemma ProseKeeps(m: Machine, ch: char)
    ensures ProseChar(m, ch).m.line == m.line && ProseChar(m, ch).m.inFence == m.inFence && ProseChar(m, ch).m.head == m.head
  {
  }

  lemma {:induction false} ProseConcat(m: Machine, a: string, b: string)
    ensures ProseText(m, a + b) == Out(ProseText(ProseText(m, a).m, b).m, ProseText(m, a).closed + ProseText(ProseText(m, a).m, b).closed)
    decreases |a|
  {
    hide ProseChar;
    if a == "" {
      assert a + b == b;
    } else {
      assert (a + b)[1..] == a[1..] + b;
      ProseConcat(ProseChar(m, a[0]).m, a[1..], b);
    }
  }

  /** What a line closes, the sentence left open at its end included, and whether it is a fence. */
  ghost predicate LineDone(m: Machine, body: string, out: Out) {
    && out.closed + End(out.m).closed == LineSentences(body, m.inFence)
    && out.m.inFence == m.inFence
    && (out.m.line == Fence <==> OpensFence(body))
  }

  lemma NoFence(body: string)
    requires body != "" && body[0] != '`' && body[0] != '~'
    ensures !OpensFence(body)
  {
  }

  lemma PlainStart(m: Machine, ch: char)
    requires LineStart(m) && ch != '\n' && !IsBlank(ch) && ch != '`' && ch != '~'
    ensures Take(m, ch) == if m.inFence || ch == '|' then Out(m.(line := Skip), []) else ProseChar(m.(line := Prose), ch)
  {
  }

  lemma ProseFirst(m: Machine, ch: char, rest: string)
    ensures ProseText(m, [ch] + rest) == Out(ProseText(ProseChar(m, ch).m, rest).m, ProseChar(m, ch).closed + ProseText(ProseChar(m, ch).m, rest).closed)
  {
    hide ProseChar;
    assert ([ch] + rest)[1..] == rest;
  }

  /** The line may be told from a fence by its first character. */
  predicate NotFenceLike(body: string) {
    body != "" && '\n' !in body && !IsBlank(body[0]) && body[0] != '`' && body[0] != '~'
  }

  lemma PlainLine(m: Machine, body: string)
    requires LineStart(m) && NotFenceLike(body)
    ensures LineDone(m, body, TakeAll(m, body))
  {
    hide LineStart, LineDone, TakeAll, IsBlank;
    NoFence(body);
    if m.inFence || body[0] == '|' {
      PassedOver(m, body);
    } else {
      ReadOut(m, body);
    }
  }

  lemma PassedOver(m: Machine, body: string)
    requires LineStart(m) && NotFenceLike(body) && (m.inFence || body[0] == '|')
    ensures LineDone(m, body, TakeAll(m, body))
  {
    NoFence(body);
    var ch, rest := body[0], body[1..];
    assert body == [ch] + rest && '\n' !in rest;
    PlainStart(m, ch);
    hide OpensFence, Take, TakeAll, Split;
    TakeFirst(m, ch, rest);
    Ignored(Take(m, ch).m, rest);
  }

  lemma ReadOut(m: Machine, body: string)
    requires LineStart(m) && NotFenceLike(body) && !m.inFence && body[0] != '|'
    ensures LineDone(m, body, TakeAll(m, body))
  {
    NoFence(body);
    var ch, rest := body[0], body[1..];
    assert body == [ch] + rest && '\n' !in rest;
    PlainStart(m, ch);
    hide OpensFence, Take, TakeAll, Split, ProseText, ProseChar, IsBlank;
    var on := m.(line := Prose);
    ProseKeeps(on, ch);
    TakeFirst(m, ch, rest);
    ReadAsProse(ProseChar(on, ch).m, rest);
    ProseFirst(on, ch, rest);
    ProseLine(on, body);
  }

  lemma ProseLine(on: Machine, body: string)
    requires on.line != MaybeFence && on.sentence == "" && !on.dot
    ensures var read := ProseText(on, body);
            read.closed + End(read.m).closed == Split(body) && read.m.inFence == on.inFence && read.m.line == on.line
  {
    PendingNone(body);
    hide Pending, Split;
    ProseSplits(on, body);
    assert "" + body == body;
    ProseTextKeeps(on, body);
    EndIsClose(ProseText(on, body).m);
  }

  lemma EndIsClose(m: Machine)
    requires m.line != MaybeFence
    ensures End(m).closed == Close(m).closed
  {
  }

  // ---- Lines that open with a backtick or a tilde ----

  /** How much of such a line shows whether it is a fence: three units, or all of a shorter line. */
  function HeadLength(body: string, from: nat): (n: nat)
    requires from <= |body|
    ensures from <= n <= |body|
    ensures n < |body| ==> Units(body[..n]) >= 3
    ensures forall k :: from <= k < n ==> Units(body[..k]) < 3
    decreases |body| - from
  {
    if from == |body| || Units(body[..from]) >= 3 then from else HeadLength(body, from + 1)
  }

  lemma UnitsOfThree(body: string)
    requires OpensFence(body)
    ensures Units(body[..0]) == 0 && Units(body[..1]) == 1 && Units(body[..2]) == 2 && Units(body[..3]) == 3
  {
    UnitsGrow(body[..0], body[0]);
    UnitsGrow(body[..1], body[1]);
    UnitsGrow(body[..2], body[2]);
    assert body[..1] == body[..0] + [body[0]] && body[..2] == body[..1] + [body[1]] && body[..3] == body[..2] + [body[2]];
  }

  /** The head alone decides whether the line is a fence. */
  lemma HeadDecides(body: string)
    ensures OpensFence(body) <==> IsFence(body[..HeadLength(body, 0)])
  {
    var n := HeadLength(body, 0);
    if OpensFence(body) {
      UnitsOfThree(body);
      assert n == 3;
    }
    assert body[..n] <= body;
  }

  lemma HeadChar(m: Machine, front: string, ch: char)
    requires LineStart(m) && ch != '\n'
    requires if front == "" then ch == '`' || ch == '~' else front[0] == '`' || front[0] == '~'
    ensures Take(if front == "" then m else m.(line := MaybeFence, head := front), ch) == FenceChar(m.(line := MaybeFence, head := front), ch)
  {
  }

  lemma LastTaken(m: Machine, text: string)
    requires text != ""
    ensures TakeAll(m, text) ==
            var rest := TakeAll(m, text[..|text| - 1]);
            var last := Take(rest.m, text[|text| - 1]);
            Out(last.m, rest.closed + last.closed)
  {
  }

  lemma NothingTaken(m: Machine)
    ensures TakeAll(m, "") == Out(m, [])
  {
  }

  lemma {:induction false} HeadGrows(m: Machine, head: string)
    requires LineStart(m) && head != "" && (head[0] == '`' || head[0] == '~') && '\n' !in head
    requires forall k :: 0 <= k <= |head| ==> Units(head[..k]) < 3
    ensures TakeAll(m, head) == Out(m.(line := MaybeFence, head := head), [])
    decreases |head|
  {
    hide Take, Units, LineStart, TakeAll;
    var front, ch := head[..|head| - 1], head[|head| - 1];
    assert head[..|head|] == head;
    assert head == front + [ch];
    HeadChar(m, front, ch);
    LastTaken(m, head);
    if front == "" {
      NothingTaken(m);
    } else {
      forall k | 0 <= k <= |front|
        ensures Units(front[..k]) < 3
      {
        assert front[..k] == head[..k];
      }
      HeadGrows(m, front);
    }
  }

  /** A head too short to be a fence is the whole line. */
  lemma ShortHeadLine(m: Machine, body: string)
    requires LineStart(m) && body != "" && (body[0] == '`' || body[0] == '~') && '\n' !in body
    requires forall k :: 0 <= k <= |body| ==> Units(body[..k]) < 3
    ensures LineDone(m, body, TakeAll(m, body))
  {
    HeadGrows(m, body);
    if OpensFence(body) { UnitsOfThree(body); }
    hide Units, TakeAll, OpensFence, LineStart;
    ShortHeadEnds(m.(line := MaybeFence, head := body), body);
  }

  lemma ShortHeadEnds(m: Machine, body: string)
    requires m.line == MaybeFence && m.head == body && m.sentence == "" && !m.dot && body != "" && body[0] != '|' && !OpensFence(body)
    ensures [] + End(m).closed == LineSentences(body, m.inFence)
  {
    PendingNone(body);
    hide Pending, Split, OpensFence;
    if !m.inFence {
      ProseSplits(m, body);
      assert "" + body == body;
    }
  }

  /** The character that completes the head settles what the line is. */
  lemma HeadSettles(m: Machine, head: string)
    requires LineStart(m) && |head| >= 2 && (head[0] == '`' || head[0] == '~') && '\n' !in head
    requires Units(head) >= 3 && forall k :: 0 <= k < |head| ==> Units(head[..k]) < 3
    ensures TakeAll(m, head) ==
            if IsFence(head) then Out(m.(head := head, line := Fence), [])
            else if m.inFence then Out(m.(head := head, line := Skip), [])
            else ProseText(m.(line := Prose), head)
  {
    hide ProseText, Units, IsFence, Take;
    var front, ch := head[..|head| - 1], head[|head| - 1];
    assert head == front + [ch];
    forall k | 0 <= k <= |front|
      ensures Units(front[..k]) < 3
    {
      assert front[..k] == head[..k];
    }
    HeadGrows(m, front);
    HeadChar(m, front, ch);
    assert m.(line := MaybeFence, head := front).(head := "", line := Prose) == m.(line := Prose);
  }

  lemma OneUnit(ch: char)
    requires ch == '`' || ch == '~'
    ensures Units([ch]) == 1
  {
    UnitsGrow("", ch);
    assert "" + [ch] == [ch];
    NoUnits();
  }

  lemma HeadOfTwo(head: string)
    requires head != "" && (head[0] == '`' || head[0] == '~') && Units(head) >= 3
    ensures |head| >= 2
  {
    OneUnit(head[0]);
    hide Units;
    assert head[..1] == [head[0]];
    assert head[..|head|] == head;
  }

  lemma SettledHead(m: Machine, body: string, n: nat)
    requires LineStart(m) && 1 <= n <= |body| && (body[0] == '`' || body[0] == '~') && '\n' !in body
    requires n == HeadLength(body, 0) && Units(body[..n]) >= 3
    ensures TakeAll(m, body[..n]) ==
            if OpensFence(body) then Out(m.(head := body[..n], line := Fence), [])
            else if m.inFence then Out(m.(head := body[..n], line := Skip), [])
            else ProseText(m.(line := Prose), body[..n])
  {
    hide Units, TakeAll;
    var head := body[..n];
    forall k | 0 <= k < |head|
      ensures Units(head[..k]) < 3
    {
      assert head[..k] == body[..k];
    }
    HeadOfTwo(head);
    HeadDecides(body);
    HeadSettles(m, head);
  }

  lemma LongHeadLine(m: Machine, body: string, n: nat)
    requires LineStart(m) && 1 <= n <= |body| && (body[0] == '`' || body[0] == '~') && '\n' !in body
    requires n == HeadLength(body, 0) && Units(body[..n]) >= 3
    ensures LineDone(m, body, TakeAll(m, body))
  {
    hide Units, HeadLength, TakeAll, ProseText, Split, OpensFence;
    var head, rest := body[..n], body[n..];
    assert body == head + rest;
    SettledHead(m, body, n);
    TakeAllConcat(m, head, rest);
    var settled := TakeAll(m, head);
    if OpensFence(body) || m.inFence {
      Ignored(settled.m, rest);
    } else {
      var on := m.(line := Prose);
      ProseTextKeeps(on, head);
      ReadAsProse(settled.m, rest);
      ProseConcat(on, head, rest);
      ProseLine(on, body);
    }
  }

  lemma EmptyLine(m: Machine)
    requires LineStart(m)
    ensures LineDone(m, "", TakeAll(m, ""))
  {
  }

  lemma FenceLikeLine(m: Machine, body: string)
    requires LineStart(m) && body != "" && (body[0] == '`' || body[0] == '~') && '\n' !in body
    ensures LineDone(m, body, TakeAll(m, body))
  {
    hide TakeAll, LineDone, Units, LineStart;
    var n := HeadLength(body, 0);
    assert body[..|body|] == body && body[..0] == "";
    NoUnits();
    if Units(body[..n]) >= 3 {
      LongHeadLine(m, body, n);
    } else {
      ShortHeadLine(m, body);
    }
  }

  lemma BodyRead(m: Machine, body: string)
    requires LineStart(m) && '\n' !in body && (body != "" ==> !IsBlank(body[0]))
    ensures LineDone(m, body, TakeAll(m, body))
  {
    hide TakeAll, LineDone, LineStart;
    if body == "" {
      EmptyLine(m);
    } else if body[0] == '`' || body[0] == '~' {
      FenceLikeLine(m, body);
    } else {
      PlainLine(m, body);
    }
  }

  /** Every line: the machine closes the sentences the reference finds in it. */
  lemma LineRead(m: Machine, line: string)
    requires LineStart(m) && '\n' !in line
    ensures LineDone(m, Stripped(line), TakeAll(m, line))
  {
    hide TakeAll, LineDone, Stripped, LineStart;
    BlanksPass(m, line);
    StrippedOk(line);
    BodyRead(m, Stripped(line));
  }

  lemma NoUnits()
    ensures Units("") == 0
  {
  }

  lemma {:induction false} StrippedOk(line: string)
    requires '\n' !in line
    ensures '\n' !in Stripped(line) && (Stripped(line) != "" ==> !IsBlank(Stripped(line)[0]))
  {
    if line != "" && IsBlank(line[0]) { StrippedOk(line[1..]); }
  }

  // ---- Whole texts ----

  /** The newline shuts a line like the end of the reply, and a fence line flips the fence. */
  lemma NewLineShuts(m: Machine)
    ensures NewLine(m).closed == End(m).closed
    ensures LineStart(NewLine(m).m)
    ensures NewLine(m).m.inFence == (m.inFence != (m.line == Fence))
  {
    ProseHeadKeeps(m, m.head);
  }

  lemma {:induction false} ProseHeadKeeps(m: Machine, text: string)
    ensures ProseText(m, text).m.inFence == m.inFence
    decreases |text|
  {
    if text != "" { ProseHeadKeeps(ProseChar(m, text[0]).m, text[1..]); }
  }

  /** All that reading a text closes, its end included. */
  function AllClosed(m: Machine, text: string): seq<string> {
    TakeAll(m, text).closed + End(TakeAll(m, text).m).closed
  }

  lemma LineThenText(m: Machine, line: string, rest: string)
    ensures var read := TakeAll(m, line);
            AllClosed(m, line + (['\n'] + rest)) == read.closed + (NewLine(read.m).closed + AllClosed(NewLine(read.m).m, rest))
  {
    hide TakeAll, Take, NewLine, End;
    var read := TakeAll(m, line);
    TakeAllConcat(m, line, ['\n'] + rest);
    TakeFirst(read.m, '\n', rest);
    NewLineTaken(read.m);
  }

  /** Every text: what the machine closes, shut at the end, are the reference's sentences. */
  lemma {:induction false} TextRead(m: Machine, text: string)
    requires LineStart(m)
    ensures AllClosed(m, text) == Sentences(text, m.inFence)
    decreases |text|
  {
    hide LineSentences, Take, End, NewLine, TakeAll, LineStart, LineLength, Stripped, OpensFence;
    var n := LineLength(text);
    var line := text[..n];
    LineRead(m, line);
    if n == |text| {
      assert line == text;
    } else {
      var rest := text[n + 1..];
      assert text == line + (['\n'] + rest);
      LineThenText(m, line, rest);
      var read := TakeAll(m, line);
      NewLineShuts(read.m);
      TextRead(NewLine(read.m).m, rest);
      assert read.closed + (End(read.m).closed + Sentences(rest, NewLine(read.m).m.inFence))
          == (read.closed + End(read.m).closed) + Sentences(rest, NewLine(read.m).m.inFence);
    }
  }

  lemma NewLineTaken(m: Machine)
    ensures Take(m, '\n') == NewLine(m)
  {
  }

  /** The whole reply, from the machine's first state. */
  lemma MachineIsReference(text: string)
    ensures AllClosed(INITIAL, text) == Sentences(text, false)
  {
    TextRead(INITIAL, text);
  }
}
