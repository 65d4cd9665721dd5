/** Recordings that are refused, and recordings that break off. */
module WebmRefusals {
  import opened Wrappers
  import opened Bytes
  import opened OggOpus
  import opened Webm
  import opened WebmRecording

  // ---- Laced blocks ----

  /** Well formed, and given up at a laced block. */
  ghost predicate Refuses(es: seq<Element>, doc: Doc) {
    Wellformed(es) && Visit(es, doc) == Err(Laced)
  }

  lemma {:induction false} WellformedConcat(a: seq<Element>, b: seq<Element>)
    requires Wellformed(a) && Wellformed(b)
    ensures Wellformed(a + b)
  {
    if a == [] {
      assert a + b == b;
    } else {
      assert (a + b)[0] == a[0] && (a + b)[1..] == a[1..] + b;
      hide VintOf, IsField, Descends;
      WellformedConcat(a[1..], b);
    }
  }

  lemma {:induction false} RefusesThen(a: seq<Element>, b: seq<Element>, doc: Doc)
    requires Refuses(a, doc) && Wellformed(b)
    ensures Refuses(a + b, doc)
  {
    assert (a + b)[0] == a[0] && (a + b)[1..] == a[1..] + b;
    WellformedConcat(a, b);
    hide VintOf, Took, Opened;
    match a[0]
    case Master(id, size, children) =>
      var inner := Visit(children, Opened(doc, VintOf(id, true).value));
      if inner.Ok? { RefusesThen(a[1..], b, inner.value); }
    case Leaf(id, size, data) =>
      var taken := Took(doc, VintOf(id, true).value, data);
      if taken.Ok? { RefusesThen(a[1..], b, taken.value); }
  }

  lemma {:induction false} ReadsThenRefuses(a: seq<Element>, b: seq<Element>, doc: Doc, between: Doc)
    requires Reads(a, doc, between) && Refuses(b, between)
    ensures Refuses(a + b, doc)
  {
    if a == [] {
      assert a + b == b;
    } else {
      assert (a + b)[0] == a[0] && (a + b)[1..] == a[1..] + b;
      WellformedConcat(a, b);
      hide VintOf, Took, Opened;
      match a[0]
      case Master(id, size, children) => ReadsThenRefuses(a[1..], b, Visit(children, Opened(doc, VintOf(id, true).value)).value, between);
      case Leaf(id, size, data) => ReadsThenRefuses(a[1..], b, Took(doc, VintOf(id, true).value, data).value, between);
    }
  }

  lemma RefusesOpen(id: seq<Byte>, value: nat, children: seq<Element>, doc: Doc)
    requires IsField(id) && VintOf(id, true).value == value && Descends(value) && Refuses(children, Opened(doc, value))
    ensures Refuses([Open(id, children)], doc)
  {
    assert Pow128(8) - 1 < Pow128(8);
    CodedIsField(Pow128(8) - 1, 8);
    RefusesMaster(id, Coded(Pow128(8) - 1, 8), children, doc);
  }

  lemma RefusesMaster(id: seq<Byte>, size: seq<Byte>, children: seq<Element>, doc: Doc)
    requires IsField(id) && IsField(size) && Descends(VintOf(id, true).value) && Refuses(children, Opened(doc, VintOf(id, true).value))
    ensures Refuses([Master(id, size, children)], doc)
  {
    hide VintOf, Took, Opened, IsField, Descends;
    var es := [Master(id, size, children)];
    assert es[1..] == [] && Wellformed(es[1..]);
    assert Wellformed(es);
  }

  lemma RefusesField(id: seq<Byte>, value: nat, data: seq<Byte>, doc: Doc)
    requires IsField(id) && VintOf(id, true).value == value && !Descends(value) && Codable(|data|, 8) && Took(doc, value, data) == Err(Laced)
    ensures Refuses([Field(id, data)], doc)
  {
    CodedReads(|data|, 8);
    hide VintOf, Took, IsField, Descends, Coded;
    var es := [Field(id, data)];
    assert es[1..] == [] && Wellformed(es[1..]);
    assert Wellformed(es);
  }

  lemma BlockRefused(b: Sent, doc: Doc)
    requires BlockFits(b) && !Unlaced(b)
    ensures Refuses([BlockTree(b)], doc)
  {
    OneByteId(0xa3);
    OneByteId(0xa1);
    OneByteId(0xa0);
    BlockParses(b);
    hide VintOf, IsField, Refuses, Codable, ParseBlock, BlockData;
    if b.grouped {
      RefusesField(BLOCK_ID, BLOCK, BlockData(b), doc);
      RefusesOpen(BLOCK_GROUP_ID, BLOCK_GROUP, [Field(BLOCK_ID, BlockData(b))], doc);
    } else {
      RefusesField(SIMPLE_BLOCK_ID, SIMPLE_BLOCK, BlockData(b), doc);
    }
  }

  predicate BlocksFit(blocks: seq<Sent>) {
    forall b :: b in blocks ==> BlockFits(b)
  }

  lemma ReadsWellformed(es: seq<Element>, doc: Doc, after: Doc)
    requires Reads(es, doc, after)
    ensures Wellformed(es)
  {
  }

  lemma RefusesWellformed(es: seq<Element>, doc: Doc)
    requires Refuses(es, doc)
    ensures Wellformed(es)
  {
  }

  /** Read or refused, the trees of blocks are well formed. */
  lemma {:induction false} BlocksTaken(blocks: seq<Sent>, doc: Doc)
    requires BlocksFit(blocks) && !doc.inEntry
    ensures Wellformed(BlockTrees(blocks)) && (BlocksOk(blocks) || Refuses(BlockTrees(blocks), doc))
  {
    hide BlockFits, Unlaced, BlockTree, Reads, Refuses, Visit;
    if BlocksOk(blocks) {
      BlocksRead(blocks, doc);
      assert Wellformed(BlockTrees(blocks)) by { ReadsWellformed(BlockTrees(blocks), doc, doc.(blocks := doc.blocks + Parsed(blocks))); }
    } else {
      var first, rest := [BlockTree(blocks[0])], BlockTrees(blocks[1..]);
      if Unlaced(blocks[0]) {
        BlockReads(blocks[0], doc);
        BlocksTaken(blocks[1..], Heard(doc, blocks[0]));
        assert !BlocksOk(blocks[1..]);
        ReadsThenRefuses(first, rest, doc, Heard(doc, blocks[0]));
      } else {
        BlockRefused(blocks[0], doc);
        BlocksTaken(blocks[1..], doc);
        RefusesThen(first, rest, doc);
      }
      assert Wellformed(first + rest) by { RefusesWellformed(first + rest, doc); }
    }
  }

  lemma ClusterTaken(blocks: seq<Sent>, doc: Doc)
    requires BlocksFit(blocks)
    ensures var tree := [Open(CLUSTER_ID, [Field(TIMESTAMP_ID, [0, 0])] + BlockTrees(blocks))];
            Wellformed(tree) && (BlocksOk(blocks) || Refuses(tree, doc))
  {
    if BlocksOk(blocks) {
      ClusterReads(blocks, doc);
    } else {
      var inside := doc.(inEntry := false);
      FourByteId(0x1f, 0x43, 0xb6, 0x75);
      OneByteId(0xe7);
      EightIsCodable();
      ReadsField(TIMESTAMP_ID, 0xe7, [0, 0], inside, inside);
      BlocksTaken(blocks, inside);
      hide VintOf, IsField, Reads, Codable, BlocksOk, BlocksFit, BlockTrees, Visit;
      ReadsThenRefuses([Field(TIMESTAMP_ID, [0, 0])], BlockTrees(blocks), inside, inside);
      RefusesOpen(CLUSTER_ID, CLUSTER, [Field(TIMESTAMP_ID, [0, 0])] + BlockTrees(blocks), doc);
    }
  }

  lemma {:induction false} ClustersTaken(clusters: seq<seq<Sent>>, doc: Doc)
    requires forall blocks :: blocks in clusters ==> BlocksFit(blocks)
    ensures Wellformed(ClusterTrees(clusters))
    ensures (forall blocks :: blocks in clusters ==> BlocksOk(blocks)) || Refuses(ClusterTrees(clusters), doc)
  {
    hide Reads, BlocksOk, BlocksFit, Open, BlockTree, ClusterTrees, Field, Refuses, Visit;
    ClusterTreesStep(clusters);
    if clusters != [] {
      var first := [Open(CLUSTER_ID, [Field(TIMESTAMP_ID, [0, 0])] + BlockTrees(clusters[0]))];
      var after := Doc(doc.tracks, false, doc.blocks + Parsed(clusters[0]));
      assert forall blocks :: blocks in clusters[1..] ==> blocks in clusters;
      ClusterTaken(clusters[0], doc);
      ClustersTaken(clusters[1..], after);
      WellformedConcat(first, ClusterTrees(clusters[1..]));
      if !BlocksOk(clusters[0]) {
        RefusesThen(first, ClusterTrees(clusters[1..]), doc);
      } else if Refuses(ClusterTrees(clusters[1..]), after) {
        ClusterReads(clusters[0], doc);
        ReadsThenRefuses(first, ClusterTrees(clusters[1..]), doc, after);
      } else {
        assert clusters == [clusters[0]] + clusters[1..];
      }
    }
  }

  /** A recording with a laced block anywhere, of whatever track, is refused. */
  lemma LacedIsRefused(entries: seq<Entry>, clusters: seq<seq<Sent>>, rate: Option<seq<Byte>> -> nat)
    requires (forall e :: e in entries ==> EntryFits(e)) && (forall blocks :: blocks in clusters ==> BlocksFit(blocks))
    requires exists blocks :: blocks in clusters && !BlocksOk(blocks)
    ensures WebmAudio(PrintAll(RecordingTree(entries, clusters)), rate) == Err(Laced)
  {
    FourByteId(0x1a, 0x45, 0xdf, 0xa3);
    FourByteId(0x18, 0x53, 0x80, 0x67);
    MasterIds();
    EightIsCodable();
    ReadsField(HEADER_ID, 0x1a45_dfa3, [], EMPTY, EMPTY);
    NotOpened(EMPTY, SEGMENT);
    hide VintOf, IsField, Reads, Codable, EntryFits, BlocksOk, BlocksFit, Read, PrintAll, Refuses, Visit, Descends, Open, Field;
    SegmentRefused(entries, clusters);
    var inside := [Field(INFO_ID, [])] + [Open(TRACKS_ID, EntryTrees(entries))] + ClusterTrees(clusters);
    RefusesOpen(SEGMENT_ID, SEGMENT, inside, EMPTY);
    ReadsThenRefuses([Field(HEADER_ID, [])], [Open(SEGMENT_ID, inside)], EMPTY, EMPTY);
    WholeRefused(RecordingTree(entries, clusters));
  }

  lemma SegmentRefused(entries: seq<Entry>, clusters: seq<seq<Sent>>)
    requires (forall e :: e in entries ==> EntryFits(e)) && (forall blocks :: blocks in clusters ==> BlocksFit(blocks))
    requires exists blocks :: blocks in clusters && !BlocksOk(blocks)
    ensures Refuses([Field(INFO_ID, [])] + [Open(TRACKS_ID, EntryTrees(entries))] + ClusterTrees(clusters), EMPTY)
  {
    hide Reads, EntryFits, BlocksOk, BlocksFit, Refuses, Open, Field, ClusterTrees, EntryTrees;
    var tracked := TracksRead(entries);
    ClustersTaken(clusters, tracked);
    ReadsThenRefuses([Field(INFO_ID, [])] + [Open(TRACKS_ID, EntryTrees(entries))], ClusterTrees(clusters), EMPTY, tracked);
  }

  lemma WholeRefused(es: seq<Element>)
    requires Refuses(es, EMPTY)
    ensures Read(PrintAll(es), EMPTY) == Err(Laced)
  {
    WalkIsVisit(es);
  }

  // ---- Recordings cut off ----

  /** A recording that breaks off inside a field is read as though the field ended there. */
  lemma CutOffIsShorter(es: seq<Element>, id: seq<Byte>, size: nat, part: seq<Byte>)
    requires Wellformed(es) && IsField(id) && !Descends(VintOf(id, true).value)
    requires |part| <= size && Codable(size, 8)
    ensures Read(PrintAll(es) + (id + Coded(size, 8) + part), EMPTY) == Read(PrintAll(es + [Field(id, part)]), EMPTY)
  {
    CodedReads(size, 8);
    CodedReads(|part|, 8);
    hide Coded, Took;
    var field := [Field(id, part)];
    assert field[1..] == [] && Wellformed(field[1..]);
    assert Wellformed(field);
    assert part + [] == part;
    PrintsAfter(es, field);
    TreeReads(es, id + Coded(size, 8) + part, EMPTY);
    TreeReads(es, PrintAll(field), EMPTY);
    if Visit(es, EMPTY).Ok? {
      var doc := Visit(es, EMPTY).value;
      LeafReads(id, Coded(|part|, 8), part, [], doc);
      assert PrintAll(field) == id + Coded(|part|, 8) + (part + []);
      ShortLeafReads(id, Coded(size, 8), part, doc);
    }
  }

  lemma ShortLeafReads(id: seq<Byte>, size: seq<Byte>, part: seq<Byte>, doc: Doc)
    requires IsField(id) && IsField(size) && !Descends(VintOf(id, true).value)
    requires !VintOf(size, false).unknown && VintOf(size, false).value >= |part|
    ensures Read(id + size + part, doc) == Then(Took(doc, VintOf(id, true).value, part), [])
  {
    hide Took, IsField, Descends;
    HeaderReads(id, size, part);
    assert part[..|part|] == part && part[|part|..] == [];
    assert NextItem(id + size + part) == Ok((Leave(VintOf(id, true).value, part), []));
  }

  lemma {:induction false} PrintsAfter(a: seq<Element>, b: seq<Element>)
    ensures PrintAll(a + b) == PrintAll(a) + PrintAll(b)
  {
    if a == [] {
      assert a + b == b;
    } else {
      assert (a + b)[0] == a[0] && (a + b)[1..] == a[1..] + b;
      PrintsAfter(a[1..], b);
    }
  }

  /** A field must say its size. */
  lemma UnknownIsRefused(id: seq<Byte>, width: nat, rest: seq<Byte>, doc: Doc)
    requires IsField(id) && !Descends(VintOf(id, true).value) && 1 <= width <= 8
    ensures Read(id + Coded(Pow128(width) - 1, width) + rest, doc) == Err(UnknownSize)
  {
    UnknownReads(width);
    hide VintOf, Coded;
    HeaderReads(id, Coded(Pow128(width) - 1, width), rest);
  }

  /** A zero byte begins no number, and an id that breaks off is cut short. */
  lemma NoNumber(id: seq<Byte>, n: nat, rest: seq<Byte>, doc: Doc)
    requires IsField(id) && 0 < n < |id|
    ensures Read([0] + rest, doc) == Err(NotWebm) && Read(id + ([0] + rest), doc) == Err(NotWebm) && Read(id[..n], doc) == Err(CutShort)
  {
    hide BigEndian, MarkerRange;
    FieldReads(id, [0] + rest, true);
    assert ReadVint([0] + rest, true) == Err(NotWebm) && ReadVint([0] + rest, false) == Err(NotWebm);
    assert NextItem(id + ([0] + rest)) == Err(NotWebm);
    assert id[..n][0] == id[0];
    assert ReadVint(id[..n], true) == Err(CutShort);
  }

  lemma UnknownReads(width: nat)
    requires 1 <= width <= 8
    ensures IsField(Coded(Pow128(width) - 1, width)) && VintOf(Coded(Pow128(width) - 1, width), false).unknown
  {
    var n := Pow128(width) - 1;
    CodedIsField(n, width);
    hide MarkerRange, VintLength, Digits, Pow128, Pow256, BigEndian;
    var field, marker, unit := Coded(n, width), MarkerRange(width), Pow256(width - 1);
    FirstDigit(field);
    LeadIsFull(field[0] - marker, marker, unit, BigEndian(field[1..]));
    FullIsOnes(field[1..]);
  }

  lemma LeadIsFull(lead: nat, marker: nat, unit: nat, low: nat)
    requires lead < marker && low < unit && lead * unit + low == marker * unit - 1
    ensures lead == marker - 1 && low == unit - 1
  {
    MulMonotone(lead + 1, marker, unit);
    if lead + 1 < marker { MulMonotone(lead + 2, marker, unit); }
  }

  lemma {:induction false} FullIsOnes(bytes: seq<Byte>)
    requires BigEndian(bytes) == Pow256(|bytes|) - 1
    ensures AllOnes(bytes)
  {
    if bytes != [] {
      var front, last := bytes[..|bytes| - 1], bytes[|bytes| - 1];
      FirstDigit(bytes);
      BigEndianBound(front);
      FullIsOnes(front);
    }
  }

  lemma {:induction false} BigEndianBound(bytes: seq<Byte>)
    ensures BigEndian(bytes) < Pow256(|bytes|)
  {
    if bytes != [] { BigEndianBound(bytes[..|bytes| - 1]); }
  }
}
