/** Replies that loop and replies that do not, and prose read back sentence by sentence. */
module RepeatLaws {
  import opened JsStrings
  import opened RepeatHistory
  import opened RepeatLines
  import opened RepeatWatch

  // ---- What loops and what does not ----

  function Five(e: Entry): seq<Entry> {
    [e, e, e, e, e]
  }

  lemma {:induction false} SameCopies(h: seq<Entry>, e: Entry)
    requires forall i :: 0 <= i < |h| ==> h[i] == e
    ensures Copies(h, e.key) == |h| && Total(h) == |h| * e.chars
  {
    if h != [] {
      SameCopies(h[..|h| - 1], e);
      assert |h| * e.chars == (|h| - 1) * e.chars + e.chars;
    }
  }

  /** The same sentence five times over is a loop, whatever came before, if it is eight characters or more and they all fit the window. */
  lemma FiveInARowLoop(h: seq<Entry>, e: Entry, sameSentenceOnly: bool)
    requires |e.key| >= 8 && 5 * e.chars <= 6_000
    ensures Looped(h + Five(e), sameSentenceOnly)
  {
    hide Copies, Total, New;
    var all, s := h + Five(e), |h|;
    assert all[s..] == Five(e) && all[|all| - 1] == e;
    SameCopies(Five(e), e);
    assert Fits(all, s);
    forall r | s < r < |all|
      ensures !New(all, r)
    {
      CopyIsOld(all, r, e);
    }
    assert NoneNew(all, s);
    assert all[s].key == e.key && Start(all) <= s;
    assert SameSentence(all);
    assert all[..|all|] == all;
  }

  lemma CopyIsOld(h: seq<Entry>, r: nat, e: Entry)
    requires 0 < r < |h| && h[r] == e && h[r - 1] == e
    ensures !New(h, r)
  {
    LastInWindow(h[..r]);
    var w := Window(h[..r]);
    assert w[|w| - 1].key == h[r].key;
  }

  lemma CopiesInPart(h: seq<Entry>, s: nat, n: nat, key: string)
    requires s <= n <= |h|
    ensures Copies(h[..n][s..], key) <= Copies(h, key)
  {
    assert h == h[..s] + h[..n][s..] + h[n..];
    CopiesConcat(h[..s] + h[..n][s..], h[n..], key);
    CopiesConcat(h[..s], h[..n][s..], key);
  }

  /** Where no sentence of eight characters or more comes five times, none closes a loop by itself. */
  lemma FourAreNoLoop(h: seq<Entry>)
    requires forall i :: 0 <= i < |h| && |h[i].key| >= 8 ==> Copies(h, h[i].key) <= 4
    ensures !Looped(h, true)
  {
    hide Copies, New, Start;
    forall n | 1 <= n <= |h|
      ensures !Fires(h[..n], true)
    {
      if s :| Start(h[..n]) <= s < n && h[..n][s].key == h[n - 1].key && Copies(h[..n][s..], h[n - 1].key) >= 5 && |h[n - 1].key| >= 8 {
        CopiesInPart(h, s, n, h[n - 1].key);
      }
    }
  }

  /** The five copies that close a loop stand within the last six thousand characters. */
  lemma FiveFitTheWindow(h: seq<Entry>)
    requires SameSentence(h)
    ensures exists s: nat :: s < |h| && Copies(h[s..], h[|h| - 1].key) >= 5 && Total(h[s..]) <= 6_000 && |h[|h| - 1].key| >= 8
  {
    hide Copies, Total, New;
    var key, start := h[|h| - 1].key, Start(h);
    var s :| start <= s < |h| && h[s].key == key && Copies(h[s..], key) >= 5 && NoneNew(h, s);
    CopiesAtMost(h[s..], key);
    CutAt(h, start, s);
    TotalConcat(h[start..s], h[s..]);
  }

  lemma CutAt<T>(s: seq<T>, i: nat, j: nat)
    requires i <= j <= |s|
    ensures s[i..] == s[i..j] + s[j..]
  {
  }

  lemma {:induction false} CopiesAtMost(h: seq<Entry>, key: string)
    ensures Copies(h, key) <= |h|
  {
    if h != [] { CopiesAtMost(h[..|h| - 1], key); }
  }

  ghost predicate KeysDistinct(h: seq<Entry>) {
    forall i, j :: 0 <= i < j < |h| ==> h[i].key != h[j].key
  }

  lemma {:induction false} DistinctKeysCount(h: seq<Entry>)
    requires KeysDistinct(h)
    ensures |Keys(h)| == |h|
    ensures forall key :: Copies(h, key) <= 1
  {
    if h != [] {
      var front, last := h[..|h| - 1], h[|h| - 1];
      DistinctKeysCount(front);
      assert forall i :: 0 <= i < |front| ==> front[i] == h[i];
      assert last.key !in Keys(front);
      assert Keys(h) == Keys(front) + {last.key};
      forall key
        ensures Copies(h, key) <= 1
      {
        CopiesPositive(front, last.key);
      }
    }
  }

  /** A reply that never says the same sentence twice does not loop. */
  lemma AllDifferentNoLoop(h: seq<Entry>, sameSentenceOnly: bool)
    requires KeysDistinct(h)
    ensures !Looped(h, sameSentenceOnly)
  {
    DistinctKeysCount(h);
    FourAreNoLoop(h);
    hide Copies, New, Start, SameSentence;
    forall n | 1 <= n <= |h|
      ensures !Fires(h[..n], sameSentenceOnly)
    {
      assert !Fires(h[..n], true);
      var w := Window(h[..n]);
      assert KeysDistinct(w);
      DistinctKeysCount(w);
    }
  }

  /** Twenty sentences or more in the window of which fewer than a fifth are distinct are a loop; so many distinct ones are not one by their share. */
  lemma ShareDecides(h: seq<Entry>)
    requires |h| >= 1 && Total(h) <= 6_000
    ensures |h| >= 20 && 5 * |Keys(h)| < |h| ==> Looped(h, false)
    ensures |h| < 20 || 5 * |Keys(h)| >= |h| ==> (Fires(h, false) <==> Fires(h, true))
  {
    hide SameSentence, FewDistinct, Keys, Total;
    AllInWindow(h);
    if FewDistinct(h) { WholeFires(h, false); }
  }

  lemma AllInWindow(h: seq<Entry>)
    requires |h| >= 1 && Total(h) <= 6_000
    ensures FewDistinct(h) <==> |h| >= 20 && 5 * |Keys(h)| < |h|
  {
    hide Keys;
    assert h[0..] == h && Fits(h, 0);
    assert Start(h) == 0;
    assert Window(h) == h;
  }

  lemma WholeFires(h: seq<Entry>, sameSentenceOnly: bool)
    requires h != [] && Fires(h, sameSentenceOnly)
    ensures Looped(h, sameSentenceOnly)
  {
    hide Fires;
    assert h[..|h|] == h;
  }

  // ---- Prose, tables and code printed ----

  /** What a sentence is made of before its end. */
  predicate Plain(body: string) {
    && body != "" && Units(body) < 6_000
    && forall i :: 0 <= i < |body| ==> body[i] !in "\U{3002}\U{FF01}\U{FF1F}!?\U{FF1B};\U{2026}.\n"
  }

  /** A sentence with its end mark, or one with a full stop and the blank behind it. */
  datatype Spoken = Marked(body: string, mark: char) | Dotted(body: string, blank: char) {
    predicate Ok() {
      && Plain(body) && (Marked? ==> mark in "\U{3002}\U{FF01}\U{FF1F}!?\U{FF1B};\U{2026}") && (Dotted? ==> blank == ' ' || blank == '\t')
    }

    function Text(): string {
      match this
      case Marked(body, mark) => body + [mark]
      case Dotted(body, _) => body + "."
    }

    function Written(): string {
      match this
      case Marked(_, _) => Text()
      case Dotted(_, blank) => Text() + [blank]
    }
  }

  /** A line of prose, a row of a table, or a fenced block with lines of code. */
  datatype Passage =
    | Prose(indent: string, said: seq<Spoken>)
    | Row(indent: string, cells: string)
    | Code(open: string, info: string, code: seq<string>, shut: string)

  predicate IsIndent(s: string) {
    forall i :: 0 <= i < |s| ==> s[i] == ' ' || s[i] == '\t'
  }

  predicate NoBreak(s: string) {
    forall i :: 0 <= i < |s| ==> s[i] != '\n'
  }

  predicate AllOk(said: seq<Spoken>) {
    forall i :: 0 <= i < |said| ==> said[i].Ok()
  }

  predicate PassageOk(p: Passage) {
    match p
    case Prose(indent, said) => IsIndent(indent) && AllOk(said) && said != [] && said[0].body != "" && said[0].body[0] !in " \t`~|"
    case Row(indent, cells) => IsIndent(indent) && NoBreak(cells)
    case Code(open, info, code, shut) =>
      && (open == "```" || open == "~~~") && (shut == "```" || shut == "~~~") && NoBreak(info)
      && forall i :: 0 <= i < |code| ==> NoBreak(code[i]) && !OpensFence(Stripped(code[i]))
  }

  function WrittenAll(said: seq<Spoken>): string {
    if said == [] then "" else said[0].Written() + WrittenAll(said[1..])
  }

  function TextAll(said: seq<Spoken>): seq<string> {
    if said == [] then [] else [said[0].Text()] + TextAll(said[1..])
  }

  function Lines(code: seq<string>): string {
    if code == [] then "" else code[0] + "\n" + Lines(code[1..])
  }

  function PassageText(p: Passage): string {
    match p
    case Prose(indent, said) => indent + WrittenAll(said) + "\n"
    case Row(indent, cells) => indent + "|" + cells + "\n"
    case Code(open, info, code, shut) => open + info + "\n" + (Lines(code) + (shut + "\n"))
  }

  function ReplyText(reply: seq<Passage>): string {
    if reply == [] then "" else PassageText(reply[0]) + ReplyText(reply[1..])
  }

  /** What was said: the sentences of the prose, none of tables or code. */
  function ReplySaid(reply: seq<Passage>): seq<string> {
    if reply == [] then [] else (if reply[0].Prose? then TextAll(reply[0].said) else []) + ReplySaid(reply[1..])
  }

  lemma {:induction false} UnitsPrefix(s: string, n: nat)
    requires n <= |s|
    ensures Units(s[..n]) <= Units(s)
  {
    if n < |s| {
      UnitsPrefix(s[..|s| - 1], n);
      assert s[..|s| - 1][..n] == s[..n];
    } else {
      assert s[..n] == s;
    }
  }

  /** Nothing ends inside a plain text. */
  lemma PlainGoesOn(body: string, rest: string, n: nat)
    requires Plain(body) && 1 <= n <= |body| && rest != ""
    ensures !EndsAt(body + rest, n)
  {
    UnitsPrefix(body, n);
    assert (body + rest)[..n] == body[..n];
    var c := (body + rest)[n - 1];
    assert c == body[n - 1];
    assert forall m :: m in "\U{3002}\U{FF01}\U{FF1F}!?\U{FF1B};\U{2026}." ==> m in "\U{3002}\U{FF01}\U{FF1F}!?\U{FF1B};\U{2026}.\n";
    NotAMark(c);
  }

  lemma NotAMark(c: char)
    ensures EndsSentence(c) <==> c in "\U{3002}\U{FF01}\U{FF1F}!?\U{FF1B};\U{2026}"
  {
    var marks := "\U{3002}\U{FF01}\U{FF1F}!?\U{FF1B};\U{2026}";
    assert marks[0] in marks && marks[1] in marks && marks[2] in marks && marks[3] in marks;
    assert marks[4] in marks && marks[5] in marks && marks[6] in marks && marks[7] in marks;
  }

  /** The first sentence of a line is split off, and the blank behind its full stop with it. */
  lemma SpokenSplits(one: Spoken, rest: string)
    requires one.Ok()
    ensures Split(one.Written() + rest) == [one.Text()] + Split(rest)
  {
    hide Split, EndsAt, Plain, IsBlank, EndsSentence;
    var s := one.Text();
    var behind := if one.Marked? then rest else [one.blank] + rest;
    var line := s + behind;
    assert one.Written() + rest == line;
    EndsThere(one, behind);
    forall n | 1 <= n < |s|
      ensures !EndsAt(line, n)
    {
      assert line == one.body + ([s[|s| - 1]] + behind);
      PlainGoesOn(one.body, [s[|s| - 1]] + behind, n);
    }
    SplitHere(s, behind);
    assert one.Dotted? ==> behind[1..] == rest;
    if one.Marked? { MarkIsNoDot(one); }
  }

  lemma MarkIsNoDot(one: Spoken)
    requires one.Ok() && one.Marked?
    ensures one.mark != '.'
  {
  }

  lemma EndsThere(one: Spoken, behind: string)
    requires one.Ok() && (one.Dotted? ==> behind != "" && behind[0] == one.blank)
    ensures EndsAt(one.Text() + behind, |one.Text()|)
  {
    hide Units;
    var line, n := one.Text() + behind, |one.Text()|;
    match one
    case Marked(body, mark) =>
      assert line[n - 1] == mark;
      NotAMark(mark);
    case Dotted(body, blank) =>
      assert line[n - 1] == '.' && line[n] == blank;
  }

  lemma {:induction false} WrittenSplits(said: seq<Spoken>)
    requires AllOk(said)
    ensures Split(WrittenAll(said)) == TextAll(said)
  {
    hide Split;
    if said == [] {
      NothingSplits();
    } else {
      WrittenSplits(said[1..]);
      SpokenSplits(said[0], WrittenAll(said[1..]));
    }
  }

  lemma NothingSplits()
    ensures Split("") == []
  {
  }

  lemma {:induction false} LineEndsAt(line: string, rest: string)
    requires NoBreak(line)
    ensures LineLength(line + "\n" + rest) == |line|
  {
    if line == "" {
      assert (line + "\n" + rest)[0] == '\n';
    } else {
      assert (line + "\n" + rest)[1..] == line[1..] + "\n" + rest;
      LineEndsAt(line[1..], rest);
    }
  }

  /** A line leaves its sentences, and the text behind it is read in or out of a block as the line says. */
  lemma LineThenRest(line: string, rest: string, inFence: bool)
    requires NoBreak(line)
    ensures var body := Stripped(line);
            Sentences(line + "\n" + rest, inFence) == LineSentences(body, inFence) + Sentences(rest, inFence != OpensFence(body))
  {
    hide LineSentences, OpensFence, Stripped;
    LineEndsAt(line, rest);
    var text := line + "\n" + rest;
    assert text[..|line|] == line && text[|line| + 1..] == rest;
  }

  lemma {:induction false} IndentStripped(indent: string, body: string)
    requires IsIndent(indent) && (body == "" || (body[0] != ' ' && body[0] != '\t'))
    ensures Stripped(indent + body) == body
  {
    if indent == "" {
      assert indent + body == body;
    } else {
      assert (indent + body)[1..] == indent[1..] + body;
      IndentStripped(indent[1..], body);
    }
  }

  lemma {:induction false} CodeIsSilent(code: seq<string>, rest: string)
    requires forall i :: 0 <= i < |code| ==> NoBreak(code[i]) && !OpensFence(Stripped(code[i]))
    ensures Sentences(Lines(code) + rest, true) == Sentences(rest, true)
  {
    hide Sentences, Stripped, OpensFence;
    if code == [] {
      assert Lines(code) + rest == rest;
    } else {
      CodeIsSilent(code[1..], rest);
      LineThenRest(code[0], Lines(code[1..]) + rest, true);
      assert Lines(code) + rest == code[0] + "\n" + (Lines(code[1..]) + rest);
      Silent(Stripped(code[0]));
    }
  }

  lemma Silent(body: string)
    ensures LineSentences(body, true) == []
  {
  }

  /** Fences open and shut wherever they are told from prose by their three marks. */
  lemma FenceLine(mark: string, info: string, rest: string, inFence: bool)
    requires (mark == "```" || mark == "~~~") && NoBreak(info)
    ensures Sentences(mark + info + "\n" + rest, inFence) == Sentences(rest, !inFence)
  {
    var line := mark + info;
    assert line[..3] == mark;
    LineThenRest(line, rest, inFence);
    assert Stripped(line) == line;
  }

  lemma {:induction false} WrittenNoBreak(said: seq<Spoken>)
    requires AllOk(said)
    ensures NoBreak(WrittenAll(said))
  {
    if said != [] {
      WrittenNoBreak(said[1..]);
      OneNoBreak(said[0]);
    }
  }

  lemma OneNoBreak(one: Spoken)
    requires one.Ok()
    ensures NoBreak(one.Written())
  {
    var marks := "\U{3002}\U{FF01}\U{FF1F}!?\U{FF1B};\U{2026}.\n";
    assert marks[9] == '\n' && '\n' in marks;
    assert NoBreak(one.body);
  }

  /** A passage read in front of a text leaves what was said in it. */
  lemma PassageReads(p: Passage, rest: string)
    requires PassageOk(p)
    ensures Sentences(PassageText(p) + rest, false) == (if p.Prose? then TextAll(p.said) else []) + Sentences(rest, false)
  {
    match p
    case Prose(indent, said) => ProseReads(indent, said, rest);
    case Row(indent, cells) => RowReads(indent, cells, rest);
    case Code(open, info, code, shut) =>
      hide Sentences, OpensFence, Stripped;
      CodeReads(open, info, code, shut, rest);
      Regrouped(open + info + "\n", Lines(code), shut + "\n", rest);
  }

  lemma Regrouped(a: string, b: string, c: string, d: string)
    ensures a + (b + c) + d == a + (b + (c + d))
  {
  }

  lemma CodeReads(open: string, info: string, code: seq<string>, shut: string, rest: string)
    requires PassageOk(Code(open, info, code, shut))
    ensures Sentences(open + info + "\n" + (Lines(code) + (shut + "\n" + rest)), false) == Sentences(rest, false)
  {
    hide Sentences, OpensFence, Stripped, Lines;
    var behind := shut + "\n" + rest;
    FenceLine(open, info, Lines(code) + behind, false);
    CodeIsSilent(code, behind);
    assert shut + "" == shut;
    FenceLine(shut, "", rest, true);
  }

  lemma RowReads(indent: string, cells: string, rest: string)
    requires IsIndent(indent) && NoBreak(cells)
    ensures Sentences(indent + "|" + cells + "\n" + rest, false) == Sentences(rest, false)
  {
    hide Sentences;
    var body := "|" + cells;
    assert indent + "|" + cells == indent + body;
    IndentStripped(indent, body);
    LineThenRest(indent + body, rest, false);
  }

  lemma ProseReads(indent: string, said: seq<Spoken>, rest: string)
    requires PassageOk(Passage.Prose(indent, said))
    ensures Sentences(indent + WrittenAll(said) + "\n" + rest, false) == TextAll(said) + Sentences(rest, false)
  {
    hide Sentences, Split;
    var body := WrittenAll(said);
    ProseBegins(said);
    WrittenNoBreak(said);
    IndentStripped(indent, body);
    LineThenRest(indent + body, rest, false);
    WrittenSplits(said);
  }

  lemma ProseBegins(said: seq<Spoken>)
    requires said != [] && said[0].body != "" && said[0].body[0] !in " \t`~|"
    ensures var body := WrittenAll(said); body != "" && body[0] == said[0].body[0] && body[0] !in " \t`~|" && !OpensFence(body)
    ensures var body := WrittenAll(said); body[0] != ' ' && body[0] != '\t' && body[0] != '|'
  {
    var body, marks := WrittenAll(said), " \t`~|";
    assert body[0] == said[0].body[0];
    assert marks[0] in marks && marks[1] in marks && marks[2] in marks && marks[3] in marks && marks[4] in marks;
  }

  /**
   * A reply printed from passages is read back as what was said in it: every sentence of its prose,
   * end marks of either width and full stops before blanks, and nothing of its tables and its code.
   */
  lemma {:induction false} ReplyReadsBack(reply: seq<Passage>)
    requires forall i :: 0 <= i < |reply| ==> PassageOk(reply[i])
    ensures Sentences(ReplyText(reply), false) == ReplySaid(reply)
  {
    hide PassageOk, PassageText;
    if reply == [] {
      NothingSaid();
    } else {
      ReplyReadsBack(reply[1..]);
      PassageReads(reply[0], ReplyText(reply[1..]));
    }
  }

  lemma NothingSaid()
    ensures Sentences("", false) == []
  {
  }

  // ---- From sentences to the verdict ----

  /** A reply that says a sentence five times in a row loops, whatever stands between its letters and digits. */
  lemma SaidFiveTimesLoops(said: seq<string>, copies: seq<string>, key: string, fold: string -> string, sameSentenceOnly: bool)
    requires |copies| == 5 && |key| >= 8
    requires forall i :: 0 <= i < 5 ==> fold(copies[i]) == key && Units(copies[i]) == Units(copies[0])
    requires 5 * Units(copies[0]) <= 6_000
    ensures Looped(Keyed(said + copies, fold), sameSentenceOnly)
  {
    hide Looped, Keyed;
    var e := Entry(key, Units(copies[0]));
    KeyedConcat(said, copies, fold);
    FiveKeyed(copies, e, fold);
    FiveInARowLoop(Keyed(said, fold), e, sameSentenceOnly);
  }

  lemma FiveKeyed(copies: seq<string>, e: Entry, fold: string -> string)
    requires |copies| == 5 && e.key != "" && forall i :: 0 <= i < 5 ==> Entry(fold(copies[i]), Units(copies[i])) == e
    ensures Keyed(copies, fold) == Five(e)
  {
    hide Units;
    KeyedTimes(copies, e, fold);
  }

  lemma {:induction false} KeyedTimes(copies: seq<string>, e: Entry, fold: string -> string)
    requires e.key != "" && forall i :: 0 <= i < |copies| ==> Entry(fold(copies[i]), Units(copies[i])) == e
    ensures Keyed(copies, fold) == seq(|copies|, i => e)
  {
    hide Units;
    if copies != [] { KeyedTimes(copies[..|copies| - 1], e, fold); }
  }

  /** One that says nothing twice, letters and digits alone compared, does not. */
  lemma NeverSaidTwiceNoLoop(said: seq<string>, fold: string -> string, sameSentenceOnly: bool)
    requires forall i, j :: 0 <= i < j < |said| && fold(said[i]) != "" ==> fold(said[i]) != fold(said[j])
    ensures !Looped(Keyed(said, fold), sameSentenceOnly)
  {
    KeyedDistinct(said, fold);
    AllDifferentNoLoop(Keyed(said, fold), sameSentenceOnly);
  }

  lemma {:induction false} KeyedDistinct(said: seq<string>, fold: string -> string)
    requires forall i, j :: 0 <= i < j < |said| && fold(said[i]) != "" ==> fold(said[i]) != fold(said[j])
    ensures KeysDistinct(Keyed(said, fold))
    ensures forall k :: 0 <= k < |Keyed(said, fold)| ==> Keyed(said, fold)[k].key != "" && exists i :: 0 <= i < |said| && fold(said[i]) == Keyed(said, fold)[k].key
  {
    hide Units;
    if said != [] {
      var front := said[..|said| - 1];
      KeyedDistinct(front, fold);
      var before := Keyed(front, fold);
      forall k | 0 <= k < |before|
        ensures exists i :: 0 <= i < |said| - 1 && fold(said[i]) == before[k].key
      {
        var i :| 0 <= i < |front| && fold(front[i]) == before[k].key;
        assert said[i] == front[i];
      }
    }
  }
}
