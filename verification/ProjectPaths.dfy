/**
 * Where a path that was cited stands under a project directory: as written, or else the shallowest
 * entry whose path ends in it, searched for level by level over a tree that may have no bottom.
 */
module ProjectPaths {
  import opened Wrappers
  import opened JsStrings
  import opened Lists

  datatype Kind = File | Dir

  datatype Form = Folder | Regular | Other

  datatype Dirent = Dirent(name: string, form: Form)

  /**
   * The host as a lookup sees it: what stands at a path, what a folder under the project directory
   * lists, and how paths are put together.
   */
  datatype Host = Host(
    kindOf: string -> Option<Kind>, list: seq<string> -> Option<seq<Dirent>>, join: seq<string> -> string, atHome: string -> string)

  datatype Lookup = Lookup(path: Option<string>, kind: Option<Kind>, matches: seq<string>)

  const NOWHERE: Lookup := Lookup(None, None, [])

  // ---- What was cited ----

  predicate IsSeparator(c: char) {
    c == '/' || c == '\\'
  }

  function DropSeparators(s: string): string {
    if s != "" && IsSeparator(s[0]) then DropSeparators(s[1..]) else s
  }

  function StripSeparators(s: string): string {
    if s != "" && IsSeparator(s[|s| - 1]) then StripSeparators(s[..|s| - 1]) else s
  }

  /** Trimmed, and a leading `./` off. */
  function Written(cited: string): string {
    var trimmed := TrimEnd(TrimStart(cited));
    if |trimmed| >= 2 && trimmed[0] == '.' && IsSeparator(trimmed[1]) then DropSeparators(trimmed[1..]) else trimmed
  }

  predicate WantsDir(written: string) {
    written != "" && IsSeparator(written[|written| - 1])
  }

  predicate Unusable(rel: string) {
    rel == "" || Units(rel) > 4096 || exists c :: c in rel && (c as int < 0x20 || c as int == 0x7F)
  }

  function SegmentLength(s: string): (n: nat)
    ensures n <= |s|
  {
    if s == "" || IsSeparator(s[0]) then 0 else 1 + SegmentLength(s[1..])
  }

  /** Split at every run of separators. */
  function Split(rel: string): (segments: seq<string>)
    ensures segments != []
    decreases |rel|
  {
    var n := SegmentLength(rel);
    if n == |rel| then [rel] else
      var rest := DropSeparators(rel[n + 1..]);
      DropShortens(rel[n + 1..]);
      [rel[..n]] + Split(rest)
  }

  lemma DropShortens(s: string)
    ensures |DropSeparators(s)| <= |s|
  {
  }

  predicate Skipped(name: string) {
    (name != "" && name[0] == '.') || name == "node_modules"
  }

  predicate EndsWith(path: seq<string>, tail: seq<string>) {
    |tail| <= |path| && forall i :: 0 <= i < |tail| ==> path[|path| - |tail| + i] == tail[i]
  }

  /** `fits`: something is there, and it is a folder where one was asked for. */
  predicate Fits(kind: Option<Kind>, wantDir: bool) {
    kind.Some? && (wantDir ==> kind.value == Dir)
  }

  // ---- The tree, level by level ----

  datatype Seen = Seen(path: seq<string>, entry: Dirent)

  function SeenIn(segments: seq<string>): Dirent -> seq<Seen> {
    (entry: Dirent) => if Skipped(entry.name) then [] else [Seen(segments + [entry.name], entry)]
  }

  function FolderOf(seen: Seen): seq<seq<string>> {
    if seen.entry.form.Folder? then [seen.path] else []
  }

  /** The entries of a folder that are looked at; none when it cannot be read. */
  function EntriesIn(host: Host): seq<string> -> seq<Seen> {
    (segments: seq<string>) => match host.list(segments) case None => [] case Some(entries) => FlatMap(SeenIn(segments), entries)
  }

  function Folders(host: Host, depth: nat): seq<seq<string>>
    decreases depth, 0
  {
    if depth == 0 then [[]] else FlatMap(FolderOf, Level(host, depth - 1))
  }

  /** The entries `depth` folders down, in the order they are looked at. */
  function Level(host: Host, depth: nat): seq<Seen>
    decreases depth, 1
  {
    FlatMap(EntriesIn(host), Folders(host, depth))
  }

  /** How many entries stand above a level. */
  function Above(host: Host, depth: nat): nat {
    if depth == 0 then 0 else Above(host, depth - 1) + |Level(host, depth - 1)|
  }

  datatype Match = Match(segments: seq<string>, kind: Kind)

  function KindOfSeen(host: Host, seen: Seen): Option<Kind> {
    match seen.entry.form
    case Folder => Some(Dir)
    case Regular => Some(File)
    case Other => host.kindOf(host.join(seen.path))
  }

  /** The entry is what was cited. */
  predicate Matches(host: Host, wanted: seq<string>, wantDir: bool, seen: Seen) {
    EndsWith(seen.path, wanted) && Fits(KindOfSeen(host, seen), wantDir)
  }

  function AsMatch(host: Host, seen: Seen): Match {
    Match(seen.path, KindOfSeen(host, seen).GetOr(File))
  }

  function MatchOf(host: Host, wanted: seq<string>, wantDir: bool): Seen -> seq<Match> {
    (seen: Seen) => if Matches(host, wanted, wantDir, seen) then [AsMatch(host, seen)] else []
  }

  function Found(host: Host, wanted: seq<string>, wantDir: bool, seen: seq<Seen>): seq<Match> {
    FlatMap(MatchOf(host, wanted, wantDir), seen)
  }

  // ---- The search ----

  /** A path that ends in the wanted one has its last name. */
  lemma LastName(path: seq<string>, name: string, wanted: seq<string>)
    requires wanted != [] && EndsWith(path + [name], wanted)
    ensures name == wanted[|wanted| - 1]
  {
    assert (path + [name])[|path + [name]| - |wanted| + (|wanted| - 1)] == name;
  }

  lemma FoundNext(host: Host, wanted: seq<string>, wantDir: bool, before: seq<Seen>, seen: Seen)
    ensures Found(host, wanted, wantDir, before + [seen]) ==
            if Matches(host, wanted, wantDir, seen) then Found(host, wanted, wantDir, before) + [AsMatch(host, seen)]
            else Found(host, wanted, wantDir, before)
    ensures FlatMap(FolderOf, before + [seen]) == if seen.entry.form.Folder? then FlatMap(FolderOf, before) + [seen.path] else FlatMap(FolderOf, before)
  {
    hide FlatMap, Matches;
    FlatMapLast(MatchOf(host, wanted, wantDir), before, seen);
    FlatMapLast(FolderOf, before, seen);
  }

  lemma SeenNext(segments: seq<string>, entries: seq<Dirent>, j: nat)
    requires j < |entries|
    ensures FlatMap(SeenIn(segments), entries[..j + 1]) ==
            if Skipped(entries[j].name) then FlatMap(SeenIn(segments), entries[..j])
            else FlatMap(SeenIn(segments), entries[..j]) + [Seen(segments + [entries[j].name], entries[j])]
    ensures FlatMap(SeenIn(segments), entries[..j]) <= FlatMap(SeenIn(segments), entries)
    ensures FlatMap(SeenIn(segments), entries[..j + 1]) <= FlatMap(SeenIn(segments), entries)
  {
    hide FlatMap, Skipped;
    FlatMapNext(SeenIn(segments), entries, j);
    FlatMapPrefix(SeenIn(segments), entries, j);
  }

  /** Where the reading of entries stands: all of them read, or the limit hit after so many. */
  predicate Read(
    host: Host, wanted: seq<string>, wantDir: bool, all: seq<Seen>, visited: nat, limit: nat,
    next: seq<seq<string>>, found: seq<Match>, visited': nat, hit: bool)
    requires visited <= limit
  {
    && hit == (visited + |all| > limit)
    && (!hit ==> visited' == visited + |all| && next == FlatMap(FolderOf, all))
    && found == Found(host, wanted, wantDir, if hit then all[..limit - visited] else all)
  }

  /** The entries of one folder. */
  method ReadFolder(host: Host, wanted: seq<string>, wantDir: bool, segments: seq<string>, entries: seq<Dirent>, visited: nat, limit: nat)
    returns (next: seq<seq<string>>, found: seq<Match>, visited': nat, hit: bool)
    requires wanted != [] && visited <= limit
    ensures Read(host, wanted, wantDir, FlatMap(SeenIn(segments), entries), visited, limit, next, found, visited', hit)
  {
    hide FlatMap, Skipped, EndsWith;
    next, found, visited', hit := [], [], visited, false;
    NoEntries(host, wanted, wantDir, segments);
    assert entries[..0] == [];
    for j := 0 to |entries|
      invariant visited' == visited + |FlatMap(SeenIn(segments), entries[..j])| <= limit
      invariant next == FlatMap(FolderOf, FlatMap(SeenIn(segments), entries[..j]))
      invariant found == Found(host, wanted, wantDir, FlatMap(SeenIn(segments), entries[..j]))
    {
      var entry := entries[j];
      SeenNext(segments, entries, j);
      if Skipped(entry.name) { continue; }
      FoundNext(host, wanted, wantDir, FlatMap(SeenIn(segments), entries[..j]), Seen(segments + [entry.name], entry));
      visited' := visited' + 1;
      if visited' > limit {
        hit := true;
        FirstOf(FlatMap(SeenIn(segments), entries[..j]), FlatMap(SeenIn(segments), entries));
        return;
      }
      var child := segments + [entry.name];
      if entry.form.Folder? { next := next + [child]; }
      if EndsWith(child, wanted) { LastName(segments, entry.name, wanted); }
      if entry.name != wanted[|wanted| - 1] || !EndsWith(child, wanted) { continue; }
      var kind := KindOfSeen(host, Seen(child, entry));
      if Fits(kind, wantDir) { found := found + [Match(child, kind.value)]; }
    }
    assert entries[..|entries|] == entries;
  }

  lemma FirstOf<T>(a: seq<T>, b: seq<T>)
    requires a <= b
    ensures b[..|a|] == a
  {
  }

  lemma NoEntries(host: Host, wanted: seq<string>, wantDir: bool, segments: seq<string>)
    ensures FlatMap(SeenIn(segments), []) == [] && FlatMap(FolderOf, []) == [] && Found(host, wanted, wantDir, []) == []
  {
  }

  /** One folder of a level more. */
  lemma FolderRead(
    host: Host, wanted: seq<string>, wantDir: bool, before: seq<Seen>, more: seq<Seen>, after: seq<Seen>, visited: nat, limit: nat,
    next: seq<seq<string>>, found: seq<Match>, visited1: nat, next': seq<seq<string>>, found': seq<Match>, visited2: nat, hit: bool)
    requires visited <= limit && visited1 <= limit
    requires Read(host, wanted, wantDir, before, visited, limit, next, found, visited1, false)
    requires Read(host, wanted, wantDir, more, visited1, limit, next', found', visited2, hit)
    ensures !hit ==> Read(host, wanted, wantDir, before + more, visited, limit, next + next', found + found', visited2, false)
    ensures hit ==> Read(host, wanted, wantDir, before + more + after, visited, limit, next + next', found + found', visited2, true)
  {
    hide FlatMap, Matches;
    FlatMapConcat(FolderOf, before, more);
    FlatMapConcat(MatchOf(host, wanted, wantDir), before, more);
    if hit {
      CutInside(before, more, after, limit - visited);
      FlatMapConcat(MatchOf(host, wanted, wantDir), before, more[..limit - visited1]);
    }
  }

  lemma CutInside<T>(a: seq<T>, b: seq<T>, c: seq<T>, k: nat)
    requires |a| <= k < |a + b|
    ensures (a + b + c)[..k] == a + b[..k - |a|]
  {
  }

  /** A level, folder by folder; one that cannot be read is passed over. */
  method ReadLevel(host: Host, wanted: seq<string>, wantDir: bool, level: seq<seq<string>>, visited: nat, limit: nat)
    returns (next: seq<seq<string>>, found: seq<Match>, visited': nat, hit: bool)
    requires wanted != [] && visited <= limit
    ensures Read(host, wanted, wantDir, FlatMap(EntriesIn(host), level), visited, limit, next, found, visited', hit)
  {
    hide FlatMap, Read;
    next, found, visited', hit := [], [], visited, false;
    NothingRead(host, wanted, wantDir, visited, limit);
    assert level[..0] == [];
    for i := 0 to |level|
      invariant visited' <= limit && !hit
      invariant Read(host, wanted, wantDir, FlatMap(EntriesIn(host), level[..i]), visited, limit, next, found, visited', false)
    {
      var segments := level[i];
      LevelNext(host, level, i);
      if host.list(segments).None? { continue; }
      var next1, found1, visited1;
      next1, found1, visited1, hit := ReadFolder(host, wanted, wantDir, segments, host.list(segments).value, visited', limit);
      FolderRead(host, wanted, wantDir, FlatMap(EntriesIn(host), level[..i]), FlatMap(SeenIn(segments), host.list(segments).value),
                 FlatMap(EntriesIn(host), level[i + 1..]), visited, limit, next, found, visited', next1, found1, visited1, hit);
      next, found, visited' := next + next1, found + found1, visited1;
      if hit { return; }
      ReadBounds(host, wanted, wantDir, FlatMap(EntriesIn(host), level[..i + 1]), visited, limit, next, found, visited');
    }
    assert level[..|level|] == level;
  }

  lemma NothingRead(host: Host, wanted: seq<string>, wantDir: bool, visited: nat, limit: nat)
    requires visited <= limit
    ensures FlatMap(EntriesIn(host), []) == [] && Read(host, wanted, wantDir, [], visited, limit, [], [], visited, false)
  {
  }

  lemma ReadBounds(
    host: Host, wanted: seq<string>, wantDir: bool, all: seq<Seen>, visited: nat, limit: nat, next: seq<seq<string>>, found: seq<Match>, visited': nat)
    requires visited <= limit && Read(host, wanted, wantDir, all, visited, limit, next, found, visited', false)
    ensures visited' <= limit
  {
  }

  lemma LevelNext(host: Host, level: seq<seq<string>>, i: nat)
    requires i < |level|
    ensures host.list(level[i]).None? ==> FlatMap(EntriesIn(host), level[..i + 1]) == FlatMap(EntriesIn(host), level[..i])
    ensures host.list(level[i]).Some? ==>
              && FlatMap(EntriesIn(host), level[..i + 1]) == FlatMap(EntriesIn(host), level[..i]) + FlatMap(SeenIn(level[i]), host.list(level[i]).value)
              && FlatMap(EntriesIn(host), level) == FlatMap(EntriesIn(host), level[..i + 1]) + FlatMap(EntriesIn(host), level[i + 1..])
  {
    hide FlatMap;
    FlatMapNext(EntriesIn(host), level, i);
    assert level[..i + 1] + level[i + 1..] == level;
    FlatMapConcat(EntriesIn(host), level[..i + 1], level[i + 1..]);
  }

  /** No level above this one has a match. */
  predicate NoneAbove(host: Host, wanted: seq<string>, wantDir: bool, depth: nat) {
    depth == 0 || (Found(host, wanted, wantDir, Level(host, depth - 1)) == [] && NoneAbove(host, wanted, wantDir, depth - 1))
  }

  lemma {:induction false} NoneAt(host: Host, wanted: seq<string>, wantDir: bool, depth: nat, d: nat)
    requires NoneAbove(host, wanted, wantDir, depth) && d < depth
    ensures Found(host, wanted, wantDir, Level(host, d)) == []
    decreases depth
  {
    hide Found, Level;
    if d < depth - 1 { NoneAt(host, wanted, wantDir, depth - 1, d); }
  }

  /**
   * How a search ended: `depth` is the first level with a match, or the level below the bottom of
   * the tree; when the limit was hit, only as much of that level counts as was read.
   */
  ghost predicate Ended(host: Host, wanted: seq<string>, wantDir: bool, limit: nat, depth: nat, hit: bool, found: seq<Match>) {
    && NoneAbove(host, wanted, wantDir, depth)
    && Above(host, depth) <= limit
    && hit == (Above(host, depth + 1) > limit)
    && (hit ==> found == Found(host, wanted, wantDir, Level(host, depth)[..limit - Above(host, depth)]))
    && (!hit ==> found == Found(host, wanted, wantDir, Level(host, depth)) && (found == [] ==> Folders(host, depth) == []))
  }

  /** The search; it ends on any tree, since every level with folders to go on to has used up some of the limit. */
  method Search(host: Host, wanted: seq<string>, wantDir: bool, limit: nat) returns (found: seq<Match>, ghost depth: nat, ghost hit: bool)
    requires wanted != []
    ensures Ended(host, wanted, wantDir, limit, depth, hit, found)
    ensures forall m :: m in found ==> EndsWith(m.segments, wanted) && (wantDir ==> m.kind == Dir)
  {
    hide FlatMap, Found, EndsWith;
    found, depth, hit := [], 0, false;
    var level: seq<seq<string>>, visited := [[]], 0;
    while level != [] && found == []
      invariant visited <= limit
      invariant found == [] ==>
                  level == Folders(host, depth) && visited == Above(host, depth) && NoneAbove(host, wanted, wantDir, depth)
      invariant found != [] ==> Ended(host, wanted, wantDir, limit, depth, false, found)
      invariant !hit
      invariant forall m :: m in found ==> EndsWith(m.segments, wanted) && (wantDir ==> m.kind == Dir)
      decreases limit - visited, if found == [] then |level| else 0
    {
      var next, found1, visited1, stopped := ReadLevel(host, wanted, wantDir, level, visited, limit);
      found := found1;
      AllFit(host, wanted, wantDir, if stopped then Level(host, depth)[..limit - visited] else Level(host, depth));
      if stopped {
        hit := true;
        return;
      }
      if next != [] { FoldersAreSeen(Level(host, depth)); }
      level, visited := next, visited1;
      if found == [] { depth := depth + 1; }
    }
    if found == [] { NothingBelow(host, wanted, wantDir, depth); }
  }

  /** What is found ends as wanted and is a folder where one is wanted. */
  lemma AllFit(host: Host, wanted: seq<string>, wantDir: bool, seen: seq<Seen>)
    ensures forall m :: m in Found(host, wanted, wantDir, seen) ==> EndsWith(m.segments, wanted) && (wantDir ==> m.kind == Dir)
  {
    forall m | m in Found(host, wanted, wantDir, seen)
      ensures EndsWith(m.segments, wanted) && (wantDir ==> m.kind == Dir)
    {
      FlatMapFrom(MatchOf(host, wanted, wantDir), seen, m);
    }
  }

  lemma FoldersAreSeen(seen: seq<Seen>)
    ensures FlatMap(FolderOf, seen) != [] ==> |seen| > 0
  {
  }

  lemma NothingBelow(host: Host, wanted: seq<string>, wantDir: bool, depth: nat)
    requires Folders(host, depth) == []
    ensures Level(host, depth) == [] && Found(host, wanted, wantDir, Level(host, depth)) == []
  {
  }

  // ---- The whole lookup ----

  predicate AtHome(rel: string) {
    |rel| >= 2 && rel[0] == '~' && IsSeparator(rel[1])
  }

  /** `isAbsoluteHostPath` on a POSIX host. */
  predicate IsAbsolute(rel: string) {
    rel != "" && rel[0] == '/'
  }

  function AsIs(kind: Option<Kind>, wantDir: bool, path: string): Lookup {
    if Fits(kind, wantDir) then Lookup(Some(path), kind, []) else NOWHERE
  }

  function Slashed(segments: seq<string>): string {
    if segments == [] then "" else if |segments| == 1 then segments[0] else segments[0] + "/" + Slashed(segments[1..])
  }

  /** A path when there is one match; where the matches are in any case. */
  function Answer(host: Host, found: seq<Match>): Lookup {
    var matches := seq(|found|, i requires 0 <= i < |found| => Slashed(found[i].segments));
    if |found| == 1 then Lookup(Some(host.join(found[0].segments)), Some(found[0].kind), matches)
    else NOWHERE.(matches := matches)
  }

  /** The path is searched for: it is usable, neither absolute nor from home, not there as written, and does not climb. */
  predicate Searched(host: Host, cited: string) {
    var rel := StripSeparators(Written(cited));
    && !Unusable(rel) && !AtHome(rel) && !IsAbsolute(rel)
    && !Fits(host.kindOf(host.join([rel])), WantsDir(Written(cited)))
    && ".." !in Split(rel) && "." !in Split(rel)
  }

  /** A lookup of a citation as it went: answered as written, from home or the root, or else by the search. */
  ghost predicate Located(host: Host, cited: string, limit: nat, r: Lookup, found: seq<Match>, depth: nat, hit: bool) {
    var rel, wantDir := StripSeparators(Written(cited)), WantsDir(Written(cited));
    if Searched(host, cited) then Ended(host, Split(rel), wantDir, limit, depth, hit, found) && r == Answer(host, found)
    else
      r == if Unusable(rel) then NOWHERE
           else if AtHome(rel) then AsIs(host.kindOf(host.atHome(rel[2..])), wantDir, host.atHome(rel[2..]))
           else if IsAbsolute(rel) then AsIs(host.kindOf(rel), wantDir, rel)
           else AsIs(host.kindOf(host.join([rel])), wantDir, host.join([rel]))
  }

  /** `locateProjectPath` */
  method LocateProjectPath(host: Host, cited: string, limit: nat) returns (r: Lookup, ghost found: seq<Match>, ghost depth: nat, ghost hit: bool)
    ensures Located(host, cited, limit, r, found, depth, hit)
  {
    hide Ended, Written, StripSeparators, Split, Unusable;
    found, depth, hit := [], 0, false;
    var written := Written(cited);
    var wantDir, rel := WantsDir(written), StripSeparators(written);
    if Unusable(rel) { return NOWHERE, found, depth, hit; }
    if AtHome(rel) || IsAbsolute(rel) {
      var abs := if AtHome(rel) then host.atHome(rel[2..]) else rel;
      var kind := host.kindOf(abs);
      r := if Fits(kind, wantDir) then Lookup(Some(abs), kind, []) else NOWHERE;
      return;
    }
    var atRoot := host.join([rel]);
    var kind := host.kindOf(atRoot);
    if Fits(kind, wantDir) { return Lookup(Some(atRoot), kind, []), found, depth, hit; }
    var wanted := Split(rel);
    if ".." in wanted || "." in wanted { return NOWHERE, found, depth, hit; }
    var matches;
    matches, depth, hit := Search(host, wanted, wantDir, limit);
    found := matches;
    r := Answer(host, matches);
  }

  // ---- What was found ----

  /** An entry stands at a path: it is listed there and not passed over, in a folder that stands itself. */
  ghost predicate Stands(host: Host, path: seq<string>, entry: Dirent)
    decreases |path|
  {
    && path != [] && entry.name == path[|path| - 1] && !Skipped(entry.name)
    && host.list(path[..|path| - 1]).Some? && entry in host.list(path[..|path| - 1]).value
    && (|path| > 1 ==> exists folder: Dirent :: folder.form.Folder? && Stands(host, path[..|path| - 1], folder))
  }

  lemma InFolder(host: Host, segments: seq<string>, x: Seen)
    ensures x in EntriesIn(host)(segments) <==>
            && host.list(segments).Some? && x.entry in host.list(segments).value
            && !Skipped(x.entry.name) && x.path == segments + [x.entry.name]
  {
    if host.list(segments).Some? {
      var entries := host.list(segments).value;
      if x in FlatMap(SeenIn(segments), entries) { FlatMapFrom(SeenIn(segments), entries, x); }
      if x.entry in entries && x in SeenIn(segments)(x.entry) { FlatMapTo(SeenIn(segments), entries, x.entry, x); }
    }
  }

  /** The levels hold just what stands, each at its own depth. */
  lemma {:induction false} LevelStands(host: Host, depth: nat, x: Seen)
    ensures x in Level(host, depth) <==> |x.path| == depth + 1 && Stands(host, x.path, x.entry)
    decreases depth, 1
  {
    hide FlatMap, EntriesIn, Skipped;
    if x in Level(host, depth) {
      FlatMapFrom(EntriesIn(host), Folders(host, depth), x);
      var segments :| segments in Folders(host, depth) && x in EntriesIn(host)(segments);
      InFolder(host, segments, x);
      FolderStands(host, depth, segments);
      assert x.path[..|x.path| - 1] == segments;
    }
    if |x.path| == depth + 1 && Stands(host, x.path, x.entry) {
      var segments := x.path[..depth];
      assert segments + [x.entry.name] == x.path;
      InFolder(host, segments, x);
      FolderStands(host, depth, segments);
      FlatMapTo(EntriesIn(host), Folders(host, depth), segments, x);
    }
  }

  lemma {:induction false} FolderStands(host: Host, depth: nat, segments: seq<string>)
    ensures segments in Folders(host, depth) <==>
            |segments| == depth && (depth > 0 ==> exists folder: Dirent :: folder.form.Folder? && Stands(host, segments, folder))
    decreases depth, 0
  {
    hide FlatMap, Stands;
    if depth > 0 {
      if segments in Folders(host, depth) {
        FlatMapFrom(FolderOf, Level(host, depth - 1), segments);
        var y :| y in Level(host, depth - 1) && segments in FolderOf(y);
        LevelStands(host, depth - 1, y);
      }
      if |segments| == depth && exists folder: Dirent :: folder.form.Folder? && Stands(host, segments, folder) {
        var folder: Dirent :| folder.form.Folder? && Stands(host, segments, folder);
        LevelStands(host, depth - 1, Seen(segments, folder));
        FlatMapTo(FolderOf, Level(host, depth - 1), Seen(segments, folder), segments);
      }
    }
  }

  /** No folder lists a name twice. */
  ghost predicate NamesDistinct(host: Host) {
    forall segments :: host.list(segments).Some? ==>
      forall i, j :: 0 <= i < j < |host.list(segments).value| ==> host.list(segments).value[i].name != host.list(segments).value[j].name
  }

  lemma OnePerPath(host: Host, path: seq<string>, e: Dirent, e': Dirent)
    requires NamesDistinct(host) && Stands(host, path, e) && Stands(host, path, e')
    ensures e == e'
  {
    var entries := host.list(path[..|path| - 1]).value;
    var i, j :| 0 <= i < |entries| && entries[i] == e && 0 <= j < |entries| && entries[j] == e';
  }

  lemma EntriesDistinct(host: Host, segments: seq<string>)
    requires NamesDistinct(host)
    ensures Distinct(EntriesIn(host)(segments))
  {
    if host.list(segments).Some? {
      FlatMapDistinct(SeenIn(segments), host.list(segments).value);
    }
  }

  lemma {:induction false} LevelDistinct(host: Host, depth: nat)
    requires NamesDistinct(host)
    ensures Distinct(Level(host, depth))
    decreases depth, 1
  {
    hide FlatMap, EntriesIn, NamesDistinct;
    FoldersDistinct(host, depth);
    forall segments | segments in Folders(host, depth)
      ensures Distinct(EntriesIn(host)(segments))
    {
      EntriesDistinct(host, segments);
    }
    forall segments, other, y | y in EntriesIn(host)(segments) && y in EntriesIn(host)(other)
      ensures segments == other
    {
      InFolder(host, segments, y);
      InFolder(host, other, y);
      SameFront(segments, other, y.entry.name);
    }
    FlatMapDistinct(EntriesIn(host), Folders(host, depth));
  }

  lemma SameFront<T>(a: seq<T>, b: seq<T>, x: T)
    requires a + [x] == b + [x]
    ensures a == b
  {
    assert a == (a + [x])[..|a|] == (b + [x])[..|b|] == b;
  }

  lemma {:induction false} FoldersDistinct(host: Host, depth: nat)
    requires NamesDistinct(host)
    ensures Distinct(Folders(host, depth))
    decreases depth, 0
  {
    hide FlatMap, Stands, NamesDistinct;
    if depth > 0 {
      LevelDistinct(host, depth - 1);
      forall x, y | x in Level(host, depth - 1) && y in Level(host, depth - 1) && x.path == y.path
        ensures x == y
      {
        LevelStands(host, depth - 1, x);
        LevelStands(host, depth - 1, y);
        OnePerPath(host, x.path, x.entry, y.entry);
      }
      FlatMapDistinct(FolderOf, Level(host, depth - 1));
    }
  }

  lemma {:induction false} EmptyBelow(host: Host, depth: nat, below: nat)
    requires Folders(host, depth) == [] && depth <= below
    ensures Level(host, below) == []
    decreases below
  {
    if depth < below { EmptyBelow(host, depth, below - 1); }
  }

  ghost predicate Fitting(host: Host, wanted: seq<string>, wantDir: bool, x: Seen) {
    Stands(host, x.path, x.entry) && Matches(host, wanted, wantDir, x)
  }

  ghost predicate FitsAt(host: Host, wanted: seq<string>, wantDir: bool, depth: nat, x: Seen) {
    Fitting(host, wanted, wantDir, x) && |x.path| == depth + 1
  }

  /** What is found in a level is just what fits there. */
  lemma FoundFits(host: Host, wanted: seq<string>, wantDir: bool, depth: nat)
    ensures forall x :: Fitting(host, wanted, wantDir, x) && |x.path| == depth + 1 ==>
              AsMatch(host, x) in Found(host, wanted, wantDir, Level(host, depth))
    ensures forall m :: m in Found(host, wanted, wantDir, Level(host, depth)) ==>
              exists x :: FitsAt(host, wanted, wantDir, depth, x) && m == AsMatch(host, x)
  {
    hide FlatMap, Stands, KindOfSeen;
    forall x | Fitting(host, wanted, wantDir, x) && |x.path| == depth + 1
      ensures AsMatch(host, x) in Found(host, wanted, wantDir, Level(host, depth))
    {
      LevelStands(host, depth, x);
      FlatMapTo(MatchOf(host, wanted, wantDir), Level(host, depth), x, AsMatch(host, x));
    }
    forall m | m in Found(host, wanted, wantDir, Level(host, depth))
      ensures exists x :: FitsAt(host, wanted, wantDir, depth, x) && m == AsMatch(host, x)
    {
      FlatMapFrom(MatchOf(host, wanted, wantDir), Level(host, depth), m);
      var x :| x in Level(host, depth) && m in MatchOf(host, wanted, wantDir)(x);
      LevelStands(host, depth, x);
    }
  }

  /**
   * When the limit was not hit, nothing that fits stands higher than the level the search ended
   * with, and nothing fits at all when nothing was found; the matches are all that fits there.
   */
  lemma ShallowestFound(host: Host, wanted: seq<string>, wantDir: bool, limit: nat, depth: nat, found: seq<Match>, x: Seen)
    requires Ended(host, wanted, wantDir, limit, depth, false, found) && Fitting(host, wanted, wantDir, x)
    ensures found != [] && |x.path| >= depth + 1
    ensures |x.path| == depth + 1 ==> AsMatch(host, x) in found
  {
    assert x.path != [];
    hide FlatMap, Found, Stands, Level, Folders, AsMatch, Ended, Matches;
    var d := |x.path| - 1;
    FoundFits(host, wanted, wantDir, d);
    assert AsMatch(host, x) in Found(host, wanted, wantDir, Level(host, d));
    EndedAt(host, wanted, wantDir, limit, depth, found, d);
  }

  lemma EndedAt(host: Host, wanted: seq<string>, wantDir: bool, limit: nat, depth: nat, found: seq<Match>, d: nat)
    requires Ended(host, wanted, wantDir, limit, depth, false, found)
    ensures d < depth || found == [] ==> Found(host, wanted, wantDir, Level(host, d)) == []
    ensures found == Found(host, wanted, wantDir, Level(host, depth))
  {
    hide FlatMap, Found, Level, Folders;
    if d < depth {
      NoneAt(host, wanted, wantDir, depth, d);
    } else if found == [] {
      EmptyBelow(host, depth, d);
      NoEntries(host, wanted, wantDir, []);
    }
  }

  lemma FoundDistinct(host: Host, wanted: seq<string>, wantDir: bool, depth: nat)
    requires NamesDistinct(host)
    ensures Distinct(Found(host, wanted, wantDir, Level(host, depth)))
  {
    hide FlatMap, Stands, NamesDistinct, Level, Matches;
    LevelDistinct(host, depth);
    forall x, y | x in Level(host, depth) && y in Level(host, depth) && x.path == y.path
      ensures x == y
    {
      LevelStands(host, depth, x);
      LevelStands(host, depth, y);
      OnePerPath(host, x.path, x.entry, y.entry);
    }
    FlatMapDistinct(MatchOf(host, wanted, wantDir), Level(host, depth));
  }

  /**
   * When the limit was not hit, a path is answered exactly when one entry, and only one, fits at
   * the least depth at which any does.
   */
  lemma PathIffOne(host: Host, wanted: seq<string>, wantDir: bool, limit: nat, depth: nat, found: seq<Match>)
    requires NamesDistinct(host) && Ended(host, wanted, wantDir, limit, depth, false, found)
    ensures Answer(host, found).path.Some? <==>
            exists x :: FitsAt(host, wanted, wantDir, depth, x) && forall y :: FitsAt(host, wanted, wantDir, depth, y) ==> y == x
  {
    assert Answer(host, found).path.Some? <==> |found| == 1;
    hide FlatMap, Found, Stands, Level, Folders, AsMatch, Ended, Matches, NamesDistinct, Distinct, Answer;
    EndedAt(host, wanted, wantDir, limit, depth, found, depth);
    FoundFits(host, wanted, wantDir, depth);
    FoundDistinct(host, wanted, wantDir, depth);
    if |found| == 1 {
      assert found[0] in found;
      var x :| FitsAt(host, wanted, wantDir, depth, x) && found[0] == AsMatch(host, x);
      forall y | FitsAt(host, wanted, wantDir, depth, y)
        ensures y == x
      {
        OnlyMatch(found, AsMatch(host, y));
        PathOfMatch(host, x, y);
        OnePerPath(host, x.path, x.entry, y.entry);
      }
    }
    if exists x :: FitsAt(host, wanted, wantDir, depth, x) && forall y :: FitsAt(host, wanted, wantDir, depth, y) ==> y == x {
      var x :| FitsAt(host, wanted, wantDir, depth, x) && forall y :: FitsAt(host, wanted, wantDir, depth, y) ==> y == x;
      AllTheSame(found, AsMatch(host, x));
    }
  }

  lemma OnlyMatch<T>(s: seq<T>, m: T)
    requires |s| == 1 && m in s
    ensures m == s[0]
  {
  }

  lemma PathOfMatch(host: Host, x: Seen, y: Seen)
    requires AsMatch(host, x) == AsMatch(host, y)
    ensures x.path == y.path
  {
  }

  lemma TwoDiffer<T>(s: seq<T>)
    requires Distinct(s) && |s| > 1
    ensures s[0] != s[1] && s[0] in s && s[1] in s
  {
  }

  lemma AllTheSame<T>(s: seq<T>, m: T)
    requires Distinct(s) && m in s && forall m' :: m' in s ==> m' == m
    ensures |s| == 1
  {
    if |s| > 1 { TwoDiffer(s); }
  }

  /** And what is answered then is that entry. */
  lemma PathIsTheOne(host: Host, wanted: seq<string>, wantDir: bool, limit: nat, depth: nat, found: seq<Match>, x: Seen)
    requires Ended(host, wanted, wantDir, limit, depth, false, found) && FitsAt(host, wanted, wantDir, depth, x)
    ensures Answer(host, found).path.Some? <==> |found| == 1
    ensures |found| == 1 ==> Answer(host, found).path == Some(host.join(x.path)) && Answer(host, found).kind == KindOfSeen(host, x)
  {
    hide FlatMap, Found, Stands, Level, Folders, Ended;
    EndedAt(host, wanted, wantDir, limit, depth, found, depth);
    FoundFits(host, wanted, wantDir, depth);
  }

  // ---- When the limit is hit ----

  /** Two folders, each with a file of the same name. */
  function Twins(name: string): Host {
    Host(
      (path: string) => None,
      (segments: seq<string>) =>
        if segments == [] then Some([Dirent("a", Folder), Dirent("b", Folder)])
        else if segments == ["a"] || segments == ["b"] then Some([Dirent(name, Regular)])
        else None,
      (segments: seq<string>) => Slashed(segments),
      (rest: string) => rest)
  }

  lemma TwinsAt(name: string, segments: seq<string>)
    requires !Skipped(name)
    ensures EntriesIn(Twins(name))([]) == [Seen(["a"], Dirent("a", Folder)), Seen(["b"], Dirent("b", Folder))]
    ensures segments == ["a"] || segments == ["b"] ==> EntriesIn(Twins(name))(segments) == [Seen(segments + [name], Dirent(name, Regular))]
  {
    var a, b, f := Dirent("a", Folder), Dirent("b", Folder), Dirent(name, Regular);
    hide FlatMap;
    FlatMapPair(SeenIn([]), a, b);
    FlatMapOne(SeenIn(segments), f);
    assert [] + ["a"] == ["a"] && [] + ["b"] == ["b"];
  }

  lemma FlatMapPair<T, U>(f: T -> seq<U>, a: T, b: T)
    ensures FlatMap(f, [a, b]) == f(a) + f(b)
  {
    assert [a, b] == [a] + [b];
    hide FlatMap;
    FlatMapConcat(f, [a], [b]);
    FlatMapOne(f, a);
    FlatMapOne(f, b);
  }

  lemma LevelIs(host: Host, depth: nat)
    ensures Level(host, depth) == FlatMap(EntriesIn(host), Folders(host, depth))
    ensures Folders(host, depth) == if depth == 0 then [[]] else FlatMap(FolderOf, Level(host, depth - 1))
    ensures Above(host, depth) == if depth == 0 then 0 else Above(host, depth - 1) + |Level(host, depth - 1)|
  {
  }

  lemma TwinLevels(name: string, d: nat)
    requires !Skipped(name) && d == 1
    ensures Level(Twins(name), d - 1) == [Seen(["a"], Dirent("a", Folder)), Seen(["b"], Dirent("b", Folder))]
    ensures Level(Twins(name), d) == [Seen(["a", name], Dirent(name, Regular)), Seen(["b", name], Dirent(name, Regular))]
    ensures Above(Twins(name), d) == 2 && Above(Twins(name), d + 1) == 4
  {
    var host := Twins(name);
    var a, b := Seen(["a"], Dirent("a", Folder)), Seen(["b"], Dirent("b", Folder));
    hide FlatMap, Twins, EntriesIn, Level, Folders, Above;
    TwinsAt(name, ["a"]);
    TwinsAt(name, ["b"]);
    LevelIs(host, d - 1);
    LevelIs(host, d);
    LevelIs(host, d + 1);
    FlatMapOne(EntriesIn(host), []);
    FlatMapPair(FolderOf, a, b);
    assert [a.path] + [b.path] == [["a"], ["b"]];
    FlatMapPair(EntriesIn(host), ["a"], ["b"]);
    assert ["a"] + [name] == ["a", name] && ["b"] + [name] == ["b", name];
  }

  lemma TwinMatches(name: string)
    requires name != "a" && name != "b"
    ensures var f, host := MatchOf(Twins(name), [name], false), Twins(name);
            && f(Seen(["a"], Dirent("a", Folder))) == [] && f(Seen(["b"], Dirent("b", Folder))) == []
            && f(Seen(["a", name], Dirent(name, Regular))) == [Match(["a", name], File)]
            && f(Seen(["b", name], Dirent(name, Regular))) == [Match(["b", name], File)]
  {
    hide Twins;
    EndsInName("a", name);
    EndsInName("b", name);
  }

  lemma EndsInName(folder: string, name: string)
    requires name != folder
    ensures EndsWith([folder, name], [name]) && !EndsWith([folder], [name])
  {
    assert [folder, name][1] == [name][0];
    assert [folder][0] != [name][0];
  }

  lemma AnswersOne(host: Host, found: seq<Match>)
    ensures Answer(host, found).path.Some? <==> |found| == 1
  {
  }

  lemma EndsOneDown(host: Host, wanted: seq<string>, wantDir: bool, limit: nat, depth: nat, found: seq<Match>)
    requires depth == 1 && Found(host, wanted, wantDir, Level(host, depth - 1)) == [] && found != []
    requires Above(host, depth) <= limit
    requires found == Found(host, wanted, wantDir, if Above(host, depth + 1) > limit then Level(host, depth)[..limit - Above(host, depth)] else Level(host, depth))
    ensures Ended(host, wanted, wantDir, limit, depth, Above(host, depth + 1) > limit, found)
  {
    hide Found, Level, Folders;
    assert NoneAbove(host, wanted, wantDir, depth - 1);
  }

  lemma TwinFound(name: string, depth: nat)
    requires !Skipped(name) && name != "a" && name != "b" && depth == 1
    ensures Found(Twins(name), [name], false, Level(Twins(name), depth - 1)) == []
    ensures Found(Twins(name), [name], false, Level(Twins(name), depth)) == [Match(["a", name], File), Match(["b", name], File)]
    ensures Found(Twins(name), [name], false, Level(Twins(name), depth)[..1]) == [Match(["a", name], File)]
  {
    hide FlatMap, Twins, Level, MatchOf, Skipped;
    TwinLevels(name, depth);
    TwinMatches(name);
    TwoOfFour(
      MatchOf(Twins(name), [name], false), Seen(["a"], Dirent("a", Folder)), Seen(["b"], Dirent("b", Folder)),
      Seen(["a", name], Dirent(name, Regular)), Seen(["b", name], Dirent(name, Regular)), Match(["a", name], File), Match(["b", name], File));
  }

  lemma TwoOfFour<T, U>(f: T -> seq<U>, a: T, b: T, x: T, y: T, one: U, two: U)
    requires f(a) == [] && f(b) == [] && f(x) == [one] && f(y) == [two]
    ensures FlatMap(f, [a, b]) == [] && FlatMap(f, [x, y]) == [one, two] && FlatMap(f, [x, y][..1]) == [one]
  {
    hide FlatMap;
    FlatMapPair(f, a, b);
    FlatMapPair(f, x, y);
    FlatMapOne(f, x);
    assert [x, y][..1] == [x];
  }

  lemma TwinsAbove(name: string, depth: nat)
    requires !Skipped(name) && depth == 1
    ensures Above(Twins(name), depth) == 2 && Above(Twins(name), depth + 1) == 4
  {
    TwinLevels(name, depth);
  }

  /**
   * A limit hit between two that fit hides the second: a path is answered though the shallowest are
   * several. With one more entry allowed there is none.
   */
  lemma LimitHidesTheSecond(name: string, depth: nat)
    requires !Skipped(name) && name != "a" && name != "b" && depth == 1
    ensures var one, two := Match(["a", name], File), Match(["b", name], File);
            && Ended(Twins(name), [name], false, 3, depth, true, [one]) && Answer(Twins(name), [one]).path.Some?
            && Ended(Twins(name), [name], false, 4, depth, false, [one, two]) && Answer(Twins(name), [one, two]).path.None?
  {
    hide Found, Twins, Level, Above, Ended, Answer, Skipped;
    var one, two := Match(["a", name], File), Match(["b", name], File);
    TwinFound(name, depth);
    TwinsAbove(name, depth);
    AnswersOne(Twins(name), [one]);
    AnswersOne(Twins(name), [one, two]);
    EndsOneDown(Twins(name), [name], false, 3, depth, [one]);
    EndsOneDown(Twins(name), [name], false, 4, depth, [one, two]);
  }
}
