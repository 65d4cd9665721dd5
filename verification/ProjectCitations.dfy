/** From the words of a citation to the entry they name. */
module ProjectCitations {
  import opened Wrappers
  import opened JsStrings
  import opened Lists
  import opened ProjectPaths

  // ---- Words and separators ----

  predicate AllSeparators(s: string) {
    forall i :: 0 <= i < |s| ==> s[i] == '/' || s[i] == '\\'
  }

  predicate NoSeparators(s: string) {
    forall i :: 0 <= i < |s| ==> s[i] != '/' && s[i] != '\\'
  }

  predicate IsRun(run: string) {
    run != "" && AllSeparators(run)
  }

  predicate IsWord(word: string) {
    word != "" && NoSeparators(word)
  }

  /** The words with a run of separators between each two. */
  function Cited(words: seq<string>, runs: seq<string>): string
    requires |words| == |runs| + 1
  {
    if runs == [] then words[0] else words[0] + runs[0] + Cited(words[1..], runs[1..])
  }

  lemma {:induction false} WordEnds(word: string, rest: string)
    requires NoSeparators(word) && (rest == "" || rest[0] == '/' || rest[0] == '\\')
    ensures SegmentLength(word + rest) == |word|
  {
    if word == "" {
      assert word + rest == rest;
    } else {
      assert (word + rest)[1..] == word[1..] + rest;
      WordEnds(word[1..], rest);
    }
  }

  lemma {:induction false} RunEnds(run: string, rest: string)
    requires AllSeparators(run) && (rest == "" || (rest[0] != '/' && rest[0] != '\\'))
    ensures DropSeparators(run + rest) == rest
  {
    if run == "" {
      assert run + rest == rest;
    } else {
      assert (run + rest)[1..] == run[1..] + rest;
      RunEnds(run[1..], rest);
    }
  }

  lemma {:induction false} RunStripped(s: string, run: string)
    requires AllSeparators(run) && s != "" && s[|s| - 1] != '/' && s[|s| - 1] != '\\'
    ensures StripSeparators(s + run) == s
  {
    if run == "" {
      assert s + run == s;
    } else {
      assert (s + run)[..|s + run| - 1] == s + run[..|run| - 1];
      RunStripped(s, run[..|run| - 1]);
    }
  }

  predicate AreWords(words: seq<string>) {
    forall word :: word in words ==> IsWord(word)
  }

  predicate AreRuns(runs: seq<string>) {
    forall run :: run in runs ==> IsRun(run)
  }

  lemma {:induction false} CitedEnds(words: seq<string>, runs: seq<string>)
    requires |words| == |runs| + 1 && AreWords(words) && AreRuns(runs)
    ensures words[0] != "" && words[|runs|] != ""
    ensures var rel := Cited(words, runs);
            && rel != "" && rel[0] == words[0][0] && rel[|rel| - 1] == words[|runs|][|words[|runs|]| - 1]
            && rel[0] != '/' && rel[0] != '\\' && rel[|rel| - 1] != '/' && rel[|rel| - 1] != '\\'
  {
    assert words[0] in words && words[|runs|] in words;
    if runs != [] {
      assert runs[0] in runs;
      CitedEnds(words[1..], runs[1..]);
    }
  }

  /** Words put together by any separators are split into just those words. */
  lemma {:induction false} SplitGivesWords(words: seq<string>, runs: seq<string>)
    requires |words| == |runs| + 1 && AreWords(words) && AreRuns(runs)
    ensures Split(Cited(words, runs)) == words
  {
    hide Split, Cited, DropSeparators, SegmentLength;
    assert words[0] in words;
    var word := words[0];
    if runs == [] {
      CitedOne(word);
      WordEnds(word, "");
      assert word + "" == word && words == [word];
      SplitStep(word);
    } else {
      assert runs[0] in runs;
      var run, rest := runs[0], Cited(words[1..], runs[1..]);
      assert words == [word] + words[1..] && runs == [run] + runs[1..];
      CitedStep(word, run, words[1..], runs[1..]);
      CitedEnds(words[1..], runs[1..]);
      SplitGivesWords(words[1..], runs[1..]);
      WordEnds(word, run + rest);
      RunEnds(run[1..], rest);
      var rel := word + (run + rest);
      assert Cited(words, runs) == rel && rel[|word| + 1..] == run[1..] + rest && rel[..|word|] == word;
      SplitStep(rel);
    }
  }

  lemma {:induction false} DroppedRun(s: string) returns (run: string)
    ensures s == run + DropSeparators(s) && AllSeparators(run)
  {
    run := "";
    if s != "" && IsSeparator(s[0]) {
      var more := DroppedRun(s[1..]);
      run := [s[0]] + more;
    }
  }

  lemma {:induction false} SegmentIsPlain(s: string)
    ensures NoSeparators(s[..SegmentLength(s)])
    ensures SegmentLength(s) < |s| ==> IsSeparator(s[SegmentLength(s)])
  {
    if s != "" && !IsSeparator(s[0]) {
      SegmentIsPlain(s[1..]);
      assert s[..SegmentLength(s)] == [s[0]] + s[1..][..SegmentLength(s[1..])];
    }
  }

  lemma CitedStep(word: string, run: string, words: seq<string>, runs: seq<string>)
    requires |words| == |runs| + 1
    ensures Cited([word] + words, [run] + runs) == word + run + Cited(words, runs)
  {
    assert ([word] + words)[1..] == words && ([run] + runs)[1..] == runs;
  }

  /** Splitting loses nothing but the separators: no segment holds one, and with some runs of them between the segments it is the text again. */
  lemma {:induction false} SplitLosesSeparators(rel: string) returns (runs: seq<string>)
    ensures |Split(rel)| == |runs| + 1 && AreRuns(runs) && Cited(Split(rel), runs) == rel
    ensures forall segment :: segment in Split(rel) ==> NoSeparators(segment)
    decreases |rel|
  {
    hide Split, Cited, DropSeparators, SegmentLength;
    SegmentIsPlain(rel);
    SplitStep(rel);
    var n := SegmentLength(rel);
    if n == |rel| {
      assert rel[..n] == rel;
      CitedOne(rel);
      runs := [];
    } else {
      var rest := DropSeparators(rel[n + 1..]);
      var more := DroppedRun(rel[n + 1..]);
      var later := SplitLosesSeparators(rest);
      var run := [rel[n]] + more;
      runs := [run] + later;
      CitedStep(rel[..n], run, Split(rest), later);
      assert rel == rel[..n] + run + rest;
    }
  }

  lemma CitedOne(word: string)
    ensures Cited([word], []) == word
  {
  }

  lemma SplitStep(rel: string)
    ensures var n := SegmentLength(rel);
            && (n == |rel| ==> Split(rel) == [rel])
            && (n < |rel| ==> |DropSeparators(rel[n + 1..])| < |rel| && Split(rel) == [rel[..n]] + Split(DropSeparators(rel[n + 1..])))
  {
    if SegmentLength(rel) < |rel| { DropShortens(rel[SegmentLength(rel) + 1..]); }
  }

  // ---- A citation ----

  /** Blanks, perhaps a leading `./`, the words, perhaps separators behind them, blanks. */
  datatype Citation = Citation(before: string, dot: string, words: seq<string>, runs: seq<string>, tail: string, after: string) {
    predicate Wellformed() {
      && IsBlankText(before) && IsBlankText(after) && AllSeparators(dot) && AllSeparators(tail)
      && |words| == |runs| + 1 && AreWords(words) && AreRuns(runs) && (dot == "" ==> words[0] != ".")
      && (dot == "" ==> words[0] != "" && !IsSpace(words[0][0]))
      && (tail == "" ==> words[|runs|] != "" && !IsSpace(words[|runs|][|words[|runs|]| - 1]))
    }

    function Core(): string
      requires Wellformed()
    {
      (if dot == "" then "" else "." + dot) + Cited(words, runs) + tail
    }

    function Text(): string
      requires Wellformed()
    {
      before + Core() + after
    }
  }

  lemma CoreEdges(c: Citation)
    requires c.Wellformed()
    ensures c.Core() != "" && !IsSpace(c.Core()[0]) && !IsSpace(c.Core()[|c.Core()| - 1])
  {
    hide Cited;
    CitedEnds(c.words, c.runs);
    assert c.tail != "" ==> c.Core()[|c.Core()| - 1] == c.tail[|c.tail| - 1];
  }

  /** Trimmed and without its leading dot, a citation is its words; it asks for a folder when separators stand behind them. */
  lemma CitationReads(c: Citation)
    requires c.Wellformed()
    ensures Written(c.Text()) == Cited(c.words, c.runs) + c.tail
    ensures StripSeparators(Written(c.Text())) == Cited(c.words, c.runs) && (WantsDir(Written(c.Text())) <==> c.tail != "")
  {
    hide Cited, TrimStart, TrimEnd;
    CoreEdges(c);
    TrimAround(c.before, c.Core(), c.after);
    CitedEnds(c.words, c.runs);
    DotDropped(c);
    RunStripped(Cited(c.words, c.runs), c.tail);
    var written := Cited(c.words, c.runs) + c.tail;
    assert c.tail == "" ==> written == Cited(c.words, c.runs);
    assert c.tail != "" ==> written[|written| - 1] == c.tail[|c.tail| - 1];
  }

  lemma DotDropped(c: Citation)
    requires c.Wellformed()
    ensures var core := c.Core();
            (if |core| >= 2 && core[0] == '.' && IsSeparator(core[1]) then DropSeparators(core[1..]) else core) == Cited(c.words, c.runs) + c.tail
  {
    CitedEnds(c.words, c.runs);
    var rest := Cited(c.words, c.runs) + c.tail;
    if c.dot == "" {
      assert c.Core() == rest;
      FirstWord(c.words, c.runs, c.tail);
    } else {
      hide Cited;
      assert c.Core() == "." + (c.dot + rest);
      assert c.Core()[1] == c.dot[0] && c.Core()[1..] == c.dot + rest;
      RunEnds(c.dot, rest);
    }
  }

  lemma FirstWord(words: seq<string>, runs: seq<string>, tail: string)
    requires |words| == |runs| + 1 && AreWords(words) && AreRuns(runs) && words[0] != "."
    ensures var rest := Cited(words, runs) + tail; |rest| >= 2 && rest[0] == '.' ==> !IsSeparator(rest[1])
  {
    assert words[0] in words;
    var rest := Cited(words, runs) + tail;
    assert words[0] <= rest;
    if |words[0]| == 1 { assert words[0] == [words[0][0]]; }
  }

  // ---- The entry it names ----

  /** Something stands there that ends in the words, and it is a folder where one was asked for. */
  ghost predicate Names(host: Host, c: Citation, x: Seen)
    requires c.Wellformed()
  {
    && Stands(host, x.path, x.entry)
    && |c.words| <= |x.path| && x.path[|x.path| - |c.words|..] == c.words
    && (x.entry.form.Other? ==> host.kindOf(host.join(x.path)).Some?)
    && (c.tail != "" ==> x.entry.form.Folder? || (x.entry.form.Other? && host.kindOf(host.join(x.path)) == Some(Dir)))
  }

  /** None that the citation names stands higher. */
  ghost predicate Highest(host: Host, c: Citation, x: Seen)
    requires c.Wellformed()
  {
    Names(host, c, x) && forall y :: Names(host, c, y) ==> |y.path| >= |x.path|
  }

  /** And no other as high. */
  ghost predicate Alone(host: Host, c: Citation, x: Seen)
    requires c.Wellformed()
  {
    Names(host, c, x) && forall y :: Names(host, c, y) && y != x ==> |y.path| > |x.path|
  }

  /** What stands is nowhere hidden and in no `node_modules`. */
  lemma {:induction false} StandsInSight(host: Host, path: seq<string>, entry: Dirent, i: nat)
    requires Stands(host, path, entry) && i < |path|
    ensures path[i] != "node_modules" && (path[i] != "" ==> path[i][0] != '.')
    decreases |path|
  {
    if i < |path| - 1 {
      var folder: Dirent :| folder.form.Folder? && Stands(host, path[..|path| - 1], folder);
      StandsInSight(host, path[..|path| - 1], folder, i);
    }
  }

  lemma NamesFits(host: Host, c: Citation, x: Seen)
    requires c.Wellformed()
    ensures Names(host, c, x) <==> Fitting(host, c.words, c.tail != "", x)
  {
    hide Stands;
    if |c.words| <= |x.path| {
      var end := x.path[|x.path| - |c.words|..];
      assert forall i :: 0 <= i < |end| ==> end[i] == x.path[|x.path| - |c.words| + i];
    }
  }

  /** Not too long, and no control character in it. */
  predicate Usable(rel: string) {
    Units(rel) <= 4096 && forall ch :: ch in rel ==> 0x20 <= ch as int && ch as int != 0x7F
  }

  predicate FromHome(rel: string) {
    |rel| >= 2 && rel[0] == '~' && (rel[1] == '/' || rel[1] == '\\')
  }

  /** Something is there, a folder where one was asked for. */
  predicate IsThere(kind: Option<Kind>, c: Citation) {
    kind.Some? && (c.tail == "" || kind == Some(Dir))
  }

  /** The words are searched for: usable, not from home, naming nothing as written, and never climbing. */
  predicate SearchedFor(host: Host, c: Citation)
    requires c.Wellformed()
  {
    var rel := Cited(c.words, c.runs);
    Usable(rel) && !FromHome(rel) && !IsThere(host.kindOf(host.join([rel])), c) && "." !in c.words && ".." !in c.words
  }

  lemma SearchesWords(host: Host, c: Citation)
    requires c.Wellformed()
    ensures SearchedFor(host, c) <==> Searched(host, c.Text())
    ensures Split(StripSeparators(Written(c.Text()))) == c.words
  {
    hide Cited, Written, StripSeparators, WantsDir, Split, Units;
    CitationReads(c);
    CitedEnds(c.words, c.runs);
    SplitGivesWords(c.words, c.runs);
  }

  function ThereOr(kind: Option<Kind>, c: Citation, path: string): Lookup {
    if IsThere(kind, c) then Lookup(Some(path), kind, []) else Lookup(None, None, [])
  }

  /** What is not searched for is answered as written, from home or under the project, or not at all. */
  lemma CitationAsWritten(host: Host, c: Citation, limit: nat, r: Lookup, found: seq<Match>, depth: nat, hit: bool)
    requires c.Wellformed() && !SearchedFor(host, c) && Located(host, c.Text(), limit, r, found, depth, hit)
    ensures var rel := Cited(c.words, c.runs);
            r == if !Usable(rel) then Lookup(None, None, [])
                 else if FromHome(rel) then ThereOr(host.kindOf(host.atHome(rel[2..])), c, host.atHome(rel[2..]))
                 else ThereOr(host.kindOf(host.join([rel])), c, host.join([rel]))
  {
    hide Cited, Written, StripSeparators, WantsDir, Split, Units, Ended, Searched, SearchedFor;
    CitationReads(c);
    CitedEnds(c.words, c.runs);
    SearchesWords(host, c);
  }

  /** A path from the root is answered as written or not at all. */
  lemma AbsoluteAsWritten(
    host: Host, before: string, rel: string, tail: string, after: string, limit: nat, r: Lookup, found: seq<Match>, depth: nat, hit: bool)
    requires IsBlankText(before) && IsBlankText(after) && AllSeparators(tail)
    requires |rel| >= 2 && rel[0] == '/' && Usable(rel) && !IsSpace(rel[|rel| - 1]) && NoSeparators(rel[|rel| - 1..])
    requires Located(host, before + (rel + tail) + after, limit, r, found, depth, hit)
    ensures r == if host.kindOf(rel).Some? && (tail == "" || host.kindOf(rel) == Some(Dir)) then Lookup(Some(rel), host.kindOf(rel), [])
                 else Lookup(None, None, [])
  {
    hide TrimStart, TrimEnd, Units, Ended;
    var core := rel + tail;
    assert rel[|rel| - 1..][0] == rel[|rel| - 1];
    assert core[|core| - 1] == if tail == "" then rel[|rel| - 1] else tail[|tail| - 1];
    TrimAround(before, core, after);
    assert Written(before + core + after) == core;
    RunStripped(rel, tail);
  }

  function Slashes(n: nat): (r: seq<string>)
    ensures |r| == n
  {
    seq(n, i => "/")
  }

  lemma {:induction false} SlashedIs(path: seq<string>)
    requires path != []
    ensures Slashed(path) == Cited(path, Slashes(|path| - 1))
  {
    if |path| > 1 {
      SlashedIs(path[1..]);
      assert Slashes(|path| - 1)[1..] == Slashes(|path| - 2);
    }
  }

  /** What a search that was not cut short found is what the citation names highest in the tree. */
  lemma FoundIsHighest(host: Host, c: Citation, limit: nat, depth: nat, found: seq<Match>)
    requires c.Wellformed() && Ended(host, c.words, c.tail != "", limit, depth, false, found)
    ensures forall x :: Highest(host, c, x) <==> FitsAt(host, c.words, c.tail != "", depth, x)
    ensures forall x :: Highest(host, c, x) ==> AsMatch(host, x) in found
    ensures forall m :: m in found ==> exists x :: Highest(host, c, x) && m == AsMatch(host, x)
    ensures found == [] ==> forall x :: !Names(host, c, x)
  {
    hide Ended, Stands, Found, Level, FlatMap, AsMatch, Matches;
    FoundFits(host, c.words, c.tail != "", depth);
    EndedAt(host, c.words, c.tail != "", limit, depth, found, depth);
    forall x
      ensures Names(host, c, x) <==> Fitting(host, c.words, c.tail != "", x)
      ensures Names(host, c, x) ==> found != [] && |x.path| >= depth + 1
    {
      NamesFits(host, c, x);
      if Names(host, c, x) { ShallowestFound(host, c.words, c.tail != "", limit, depth, found, x); }
    }
    if found != [] {
      assert found[0] in found;
      var least :| FitsAt(host, c.words, c.tail != "", depth, least) && found[0] == AsMatch(host, least);
      assert Names(host, c, least) && |least.path| == depth + 1;
    }
  }

  /**
   * A citation that has to be searched for, in a tree read to its end: a path is answered exactly
   * when one entry stands alone as the highest that ends in the words cited, and then it is that
   * entry's, with its kind. The matches are the highest entries' paths, written with slashes; with
   * no such entry there are none.
   */
  lemma CitationIsFound(host: Host, c: Citation, limit: nat, r: Lookup, found: seq<Match>, depth: nat)
    requires c.Wellformed() && SearchedFor(host, c) && NamesDistinct(host)
    requires Located(host, c.Text(), limit, r, found, depth, false)
    ensures r.path.Some? <==> exists x :: Alone(host, c, x)
    ensures forall x :: Alone(host, c, x) ==>
              && r.path == Some(host.join(x.path))
              && r.kind == match x.entry.form case Folder => Some(Dir) case Regular => Some(File) case Other => host.kindOf(host.join(x.path))
    ensures forall m :: m in r.matches <==> exists x :: Highest(host, c, x) && m == Cited(x.path, Slashes(|x.path| - 1))
    ensures r.path.None? ==> r.kind.None?
  {
    hide Ended, Stands, NamesDistinct, SearchedFor, Answer, Highest, Alone, Located, Slashes, KindOfSeen;
    SearchGoes(host, c, limit, r, found, depth);
    FoundIsHighest(host, c, limit, depth, found);
    AnswersMatches(host, c, found);
    forall x
      ensures Alone(host, c, x) <==> Highest(host, c, x) && forall y :: Highest(host, c, y) ==> y == x
    {
      AloneIsOnly(host, c, x);
    }
    OnlyAnswers(host, c, limit, depth, found);
    forall x | Alone(host, c, x)
      ensures r.kind == match x.entry.form case Folder => Some(Dir) case Regular => Some(File) case Other => host.kindOf(host.join(x.path))
    {
      KindIs(host, x);
    }
    AnswersNone(host, found);
  }

  lemma KindIs(host: Host, x: Seen)
    ensures KindOfSeen(host, x) == match x.entry.form case Folder => Some(Dir) case Regular => Some(File) case Other => host.kindOf(host.join(x.path))
  {
  }

  lemma SearchGoes(host: Host, c: Citation, limit: nat, r: Lookup, found: seq<Match>, depth: nat)
    requires c.Wellformed() && SearchedFor(host, c) && Located(host, c.Text(), limit, r, found, depth, false)
    ensures Ended(host, c.words, c.tail != "", limit, depth, false, found) && r == Answer(host, found)
  {
    hide Ended, SearchedFor, Searched, Answer;
    SearchesWords(host, c);
    CitationReads(c);
  }

  lemma OnlyAnswers(host: Host, c: Citation, limit: nat, depth: nat, found: seq<Match>)
    requires c.Wellformed() && NamesDistinct(host) && Ended(host, c.words, c.tail != "", limit, depth, false, found)
    requires forall x :: Highest(host, c, x) <==> FitsAt(host, c.words, c.tail != "", depth, x)
    requires forall x :: Alone(host, c, x) <==> Highest(host, c, x) && forall y :: Highest(host, c, y) ==> y == x
    ensures Answer(host, found).path.Some? <==> exists x :: Alone(host, c, x)
    ensures forall x :: Alone(host, c, x) ==>
              Answer(host, found).path == Some(host.join(x.path)) && Answer(host, found).kind == KindOfSeen(host, x)
  {
    hide Ended, Stands, NamesDistinct, Answer, Highest, Alone, FitsAt, KindOfSeen;
    var wantDir := c.tail != "";
    PathIffOne(host, c.words, wantDir, limit, depth, found);
    if Answer(host, found).path.Some? {
      var x :| FitsAt(host, c.words, wantDir, depth, x) && forall y :: FitsAt(host, c.words, wantDir, depth, y) ==> y == x;
      assert Highest(host, c, x) && forall y :: Highest(host, c, y) ==> y == x;
      assert Alone(host, c, x);
    }
    forall x | Alone(host, c, x)
      ensures Answer(host, found).path == Some(host.join(x.path)) && Answer(host, found).kind == KindOfSeen(host, x)
    {
      assert Highest(host, c, x) && forall y :: Highest(host, c, y) ==> y == x;
      forall y | FitsAt(host, c.words, wantDir, depth, y)
        ensures y == x
      {
        assert Highest(host, c, y);
      }
      PathIsTheOne(host, c.words, wantDir, limit, depth, found, x);
    }
  }

  lemma AloneIsOnly(host: Host, c: Citation, x: Seen)
    requires c.Wellformed()
    ensures Alone(host, c, x) <==> Highest(host, c, x) && forall y :: Highest(host, c, y) ==> y == x
  {
    hide Names;
    if Highest(host, c, x) && forall y :: Highest(host, c, y) ==> y == x {
      forall y | Names(host, c, y) && |y.path| <= |x.path|
        ensures y == x
      {
        assert Highest(host, c, y);
      }
    }
  }

  lemma AnswersNone(host: Host, found: seq<Match>)
    ensures Answer(host, found).path.None? ==> Answer(host, found).kind.None?
  {
  }

  lemma AnswersMatches(host: Host, c: Citation, found: seq<Match>)
    requires c.Wellformed()
    requires forall x :: Highest(host, c, x) ==> AsMatch(host, x) in found
    requires forall m :: m in found ==> exists x :: Highest(host, c, x) && m == AsMatch(host, x)
    ensures forall m :: m in Answer(host, found).matches <==> exists x :: Highest(host, c, x) && m == Cited(x.path, Slashes(|x.path| - 1))
  {
    hide Stands, KindOfSeen, Slashed, Cited, Slashes;
    var matches := Answer(host, found).matches;
    forall x | Highest(host, c, x)
      ensures x.path != [] && Slashed(x.path) == Cited(x.path, Slashes(|x.path| - 1)) && Slashed(x.path) in matches
    {
      assert |c.words| >= 1;
      SlashedIs(x.path);
      var i :| 0 <= i < |found| && found[i] == AsMatch(host, x);
      assert matches[i] == Slashed(x.path);
    }
    forall m | m in matches
      ensures exists x :: Highest(host, c, x) && m == Cited(x.path, Slashes(|x.path| - 1))
    {
      var i :| 0 <= i < |matches| && matches[i] == m;
      assert found[i] in found;
      var x :| Highest(host, c, x) && found[i] == AsMatch(host, x);
    }
  }

  // ---- How much of the tree is read ----

  lemma {:induction false} AboveCounts(host: Host, depth: nat) returns (above: set<Seen>)
    requires NamesDistinct(host)
    ensures |above| == Above(host, depth) && forall x :: x in above ==> Stands(host, x.path, x.entry) && |x.path| <= depth
  {
    hide Stands, NamesDistinct, Level;
    above := {};
    if depth > 0 {
      var higher := AboveCounts(host, depth - 1);
      var level := LevelCounts(host, depth - 1);
      hide Above;
      AboveIs(host, depth);
      Apart(higher, level, depth - 1);
      above := higher + level;
    }
  }

  lemma Apart(higher: set<Seen>, level: set<Seen>, depth: nat)
    requires (forall x :: x in higher ==> |x.path| <= depth) && (forall x :: x in level ==> |x.path| == depth + 1)
    ensures |higher + level| == |higher| + |level|
  {
    assert higher !! level;
  }

  lemma LevelCounts(host: Host, depth: nat) returns (level: set<Seen>)
    requires NamesDistinct(host)
    ensures |level| == |Level(host, depth)| && forall x :: x in level ==> Stands(host, x.path, x.entry) && |x.path| == depth + 1
  {
    hide Stands, NamesDistinct, Level;
    LevelDistinct(host, depth);
    DistinctCount(Level(host, depth));
    level := Elements(Level(host, depth));
    forall x | x in level
      ensures Stands(host, x.path, x.entry) && |x.path| == depth + 1
    {
      LevelStands(host, depth, x);
    }
  }

  lemma AboveIs(host: Host, depth: nat)
    requires depth > 0
    ensures Above(host, depth) == Above(host, depth - 1) + |Level(host, depth - 1)|
  {
  }

  lemma PartIsFewer<T>(part: set<T>, whole: set<T>)
    requires part <= whole
    ensures |part| <= |whole|
  {
    assert whole == part + (whole - part);
  }

  /** The limit is never hit in a tree with no more entries in sight than it allows. */
  lemma SmallTreeIsRead(host: Host, inSight: set<Seen>, wanted: seq<string>, wantDir: bool, limit: nat, depth: nat, hit: bool, found: seq<Match>)
    requires NamesDistinct(host) && (forall x: Seen :: Stands(host, x.path, x.entry) ==> x in inSight) && |inSight| <= limit
    requires Ended(host, wanted, wantDir, limit, depth, hit, found)
    ensures !hit
  {
    hide NamesDistinct, Level, Found;
    var above := AboveCounts(host, depth + 1);
    PartIsFewer(above, inSight);
  }
}
