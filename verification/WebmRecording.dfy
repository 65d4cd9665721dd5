/** Recordings written out byte by byte by RFC 8794 and RFC 9559, and what the remuxer makes of them. */
module WebmRecording {
  import opened Wrappers
  import opened Bytes
  import opened Lists
  import opened OggOpus
  import opened Webm
  import OggPages

  // ---- Numbers as EBML writes them ----

  /** The last `width` digits of a number to the base 256, the highest first. */
  function Digits(n: nat, width: nat): (r: seq<Byte>)
    ensures |r| == width
  {
    if width == 0 then [] else Digits(n / 256, width - 1) + [n % 256]
  }

  function Pow128(k: nat): (p: nat)
    ensures p >= 1
  {
    if k == 0 then 1 else 128 * Pow128(k - 1)
  }

  /** Section 4 of RFC 8794: seven bits a byte, and the marker bit above them. */
  function Coded(n: nat, width: nat): (r: seq<Byte>)
    ensures |r| == width
  {
    Digits(n + Pow128(width), width)
  }

  /** The number fits, and is not the one reserved for "unknown". */
  predicate Codable(n: nat, width: nat) {
    1 <= width <= 8 && n < Pow128(width) - 1
  }

  lemma {:induction false} FirstDigit(bytes: seq<Byte>)
    requires bytes != []
    ensures BigEndian(bytes) == bytes[0] * Pow256(|bytes| - 1) + BigEndian(bytes[1..])
    ensures BigEndian(bytes[1..]) < Pow256(|bytes| - 1)
  {
    if |bytes| > 1 {
      var front := bytes[..|bytes| - 1];
      FirstDigit(front);
      assert bytes[1..][..|bytes| - 2] == front[1..];
      assert 256 * (bytes[0] * Pow256(|bytes| - 2)) == bytes[0] * Pow256(|bytes| - 1);
    } else {
      assert bytes[..0] == [] && bytes[1..] == [];
    }
  }

  lemma {:induction false} DigitsRead(n: nat, width: nat)
    requires n < Pow256(width)
    ensures BigEndian(Digits(n, width)) == n
  {
    if width > 0 {
      DigitsRead(n / 256, width - 1);
      assert Digits(n, width)[..width - 1] == Digits(n / 256, width - 1);
    }
  }

  lemma {:induction false} OnesAreMost(bytes: seq<Byte>)
    requires AllOnes(bytes)
    ensures BigEndian(bytes) == Pow256(|bytes|) - 1
  {
    if bytes != [] { OnesAreMost(bytes[..|bytes| - 1]); }
  }

  lemma MarkerIs(width: nat)
    requires 1 <= width <= 8
    ensures Pow128(width) == MarkerRange(width) * Pow256(width - 1) && 2 * MarkerRange(width) <= 256
    ensures forall first: Byte :: MarkerRange(width) <= first < 2 * MarkerRange(width) ==> VintLength(first) == width
  {
    assert Pow128(0) == 1 && Pow256(0) == 1;
    assert Pow128(1) == 128 && Pow256(1) == 256;
    assert Pow128(2) == 128 * Pow128(1) && Pow256(2) == 256 * Pow256(1);
    assert Pow128(3) == 128 * Pow128(2) && Pow256(3) == 256 * Pow256(2);
    assert Pow128(4) == 128 * Pow128(3) && Pow256(4) == 256 * Pow256(3);
    assert Pow128(5) == 128 * Pow128(4) && Pow256(5) == 256 * Pow256(4);
    assert Pow128(6) == 128 * Pow128(5) && Pow256(6) == 256 * Pow256(5);
    assert Pow128(7) == 128 * Pow128(6) && Pow256(7) == 256 * Pow256(6);
    assert Pow128(8) == 128 * Pow128(7);
  }

  lemma MulMonotone(a: nat, b: nat, unit: nat)
    requires a <= b
    ensures a * unit <= b * unit && (b - a) * unit == b * unit - a * unit
  {
    assert b * unit == a * unit + (b - a) * unit;
  }

  /** A leading digit that carries the marker. */
  lemma MarkedLead(n: nat, marker: nat, unit: nat, first: nat, low: nat)
    requires marker >= 1 && low < unit && first * unit + low == n + marker * unit && n < marker * unit
    ensures marker <= first < 2 * marker && first % marker == first - marker && (first - marker) * unit + low == n
  {
    if first < marker { MulMonotone(first + 1, marker, unit); }
    assert (2 * marker) * unit == marker * unit + marker * unit;
    if first >= 2 * marker { MulMonotone(2 * marker, first, unit); }
    MulMonotone(marker, first, unit);
    ModUnique(first, marker, 1, first - marker);
  }

  /** The first byte tells the width, whatever the number; this one is also what "unknown" looks like. */
  lemma CodedIsField(n: nat, width: nat)
    requires 1 <= width <= 8 && n < Pow128(width)
    ensures IsField(Coded(n, width))
    ensures var field, marker, unit := Coded(n, width), MarkerRange(width), Pow256(width - 1);
            && Pow128(width) == marker * unit && marker <= field[0] < 2 * marker && field[0] % marker == field[0] - marker
            && (field[0] - marker) * unit + BigEndian(field[1..]) == n
  {
    hide MarkerRange, VintLength, Digits, Pow128, Pow256, BigEndian;
    MarkerIs(width);
    var field, unit, marker := Coded(n, width), Pow256(width - 1), MarkerRange(width);
    RoomForMarker(n, width);
    DigitsRead(n + Pow128(width), width);
    FirstDigit(field);
    MarkedLead(n, marker, unit, field[0], BigEndian(field[1..]));
  }

  /** A number as EBML writes it is read as that number, and not as unknown. */
  lemma CodedReads(n: nat, width: nat)
    requires Codable(n, width)
    ensures IsField(Coded(n, width)) && VintOf(Coded(n, width), false) == Vint(n, width, false)
  {
    CodedIsField(n, width);
    LeadReads(n, width, Coded(n, width));
  }

  lemma LeadReads(n: nat, width: nat, field: seq<Byte>)
    requires Codable(n, width) && |field| == width && IsField(field)
    requires var marker, unit := MarkerRange(width), Pow256(width - 1);
             && Pow128(width) == marker * unit && marker <= field[0] < 2 * marker && field[0] % marker == field[0] - marker
             && (field[0] - marker) * unit + BigEndian(field[1..]) == n
    ensures VintOf(field, false) == Vint(n, width, false)
  {
    hide MarkerRange, VintLength, Digits, Pow128, Pow256, BigEndian;
    var unit, marker := Pow256(width - 1), MarkerRange(width);
    var lead: Byte := field[0] % marker;
    var all := [lead] + field[1..];
    FirstDigit(all);
    assert all[1..] == field[1..];
    if lead == marker - 1 && AllOnes(field[1..]) {
      OnesAreMost(field[1..]);
      MulMonotone(marker - 1, marker, unit);
    }
  }

  lemma RoomForMarker(n: nat, width: nat)
    requires 1 <= width <= 8 && n < Pow128(width)
    ensures n + Pow128(width) < Pow256(width)
  {
    MarkerIs(width);
    assert Pow256(width) == 256 * Pow256(width - 1);
    MulMonotone(2 * MarkerRange(width), 256, Pow256(width - 1));
    assert (2 * MarkerRange(width)) * Pow256(width - 1) == Pow128(width) + Pow128(width);
  }

  // ---- A recording ----

  /** Element identifiers as RFC 9559 registers them, byte for byte. */
  const HEADER_ID: seq<Byte> := [0x1a, 0x45, 0xdf, 0xa3]
  const SEGMENT_ID: seq<Byte> := [0x18, 0x53, 0x80, 0x67]
  const INFO_ID: seq<Byte> := [0x15, 0x49, 0xa9, 0x66]
  const TRACKS_ID: seq<Byte> := [0x16, 0x54, 0xae, 0x6b]
  const TRACK_ENTRY_ID: seq<Byte> := [0xae]
  const TRACK_NUMBER_ID: seq<Byte> := [0xd7]
  const CODEC_ID_ID: seq<Byte> := [0x86]
  const CODEC_PRIVATE_ID: seq<Byte> := [0x63, 0xa2]
  const CODEC_DELAY_ID: seq<Byte> := [0x56, 0xaa]
  const AUDIO_ID: seq<Byte> := [0xe1]
  const SAMPLING_FREQUENCY_ID: seq<Byte> := [0xb5]
  const CHANNELS_ID: seq<Byte> := [0x9f]
  const CLUSTER_ID: seq<Byte> := [0x1f, 0x43, 0xb6, 0x75]
  const TIMESTAMP_ID: seq<Byte> := [0xe7]
  const SIMPLE_BLOCK_ID: seq<Byte> := [0xa3]
  const BLOCK_GROUP_ID: seq<Byte> := [0xa0]
  const BLOCK_ID: seq<Byte> := [0xa1]

  /** A track as its entry describes it; what is `None` is left out of the entry. */
  datatype Entry = Entry(
    number: nat, codec: seq<Byte>, private: Option<seq<Byte>>, delayNs: Option<nat>, channels: Option<nat>, rate: Option<seq<Byte>>)

  /** One block: its track, the width the track number is written in, its time, flags and payload. */
  datatype Sent = Sent(track: nat, width: nat, time: (Byte, Byte), flags: Byte, payload: seq<Byte>, grouped: bool)

  /** An element whose size field is eight bytes wide. */
  function Field(id: seq<Byte>, data: seq<Byte>): Element {
    Leaf(id, Coded(|data|, 8), data)
  }

  /** A master of unknown size, as recorders write those they stream. */
  function Open(id: seq<Byte>, children: seq<Element>): Element {
    Master(id, Coded(Pow128(8) - 1, 8), children)
  }

  function Optional(id: seq<Byte>, data: Option<seq<Byte>>): seq<Element> {
    match data
    case None => []
    case Some(bytes) => [Field(id, bytes)]
  }

  function Number(n: Option<nat>): Option<seq<Byte>> {
    match n
    case None => None
    case Some(value) => Some(Digits(value, 8))
  }

  function NameFields(e: Entry): seq<Element> {
    [Field(TRACK_NUMBER_ID, Digits(e.number, 8))] + [Field(CODEC_ID_ID, e.codec)]
  }

  function CodecFields(e: Entry): seq<Element> {
    Optional(CODEC_PRIVATE_ID, e.private) + Optional(CODEC_DELAY_ID, Number(e.delayNs))
  }

  function AudioFields(e: Entry): seq<Element> {
    Optional(SAMPLING_FREQUENCY_ID, e.rate) + Optional(CHANNELS_ID, Number(e.channels))
  }

  function EntryTree(e: Entry): Element {
    Open(TRACK_ENTRY_ID, NameFields(e) + CodecFields(e) + [Open(AUDIO_ID, AudioFields(e))])
  }

  /** The track number, two bytes of time, the flags, and then the frame to the end. */
  function BlockData(b: Sent): seq<Byte> {
    Coded(b.track, b.width) + [b.time.0, b.time.1, b.flags] + b.payload
  }

  function BlockTree(b: Sent): Element {
    if b.grouped then Open(BLOCK_GROUP_ID, [Field(BLOCK_ID, BlockData(b))]) else Field(SIMPLE_BLOCK_ID, BlockData(b))
  }

  function BlockTrees(blocks: seq<Sent>): seq<Element> {
    if blocks == [] then [] else [BlockTree(blocks[0])] + BlockTrees(blocks[1..])
  }

  function ClusterTrees(clusters: seq<seq<Sent>>): seq<Element> {
    if clusters == [] then []
    else [Open(CLUSTER_ID, [Field(TIMESTAMP_ID, [0, 0])] + BlockTrees(clusters[0]))] + ClusterTrees(clusters[1..])
  }

  function EntryTrees(entries: seq<Entry>): seq<Element> {
    if entries == [] then [] else [EntryTree(entries[0])] + EntryTrees(entries[1..])
  }

  /** The tracks, and the blocks cluster by cluster, behind the header and an information element. */
  function RecordingTree(entries: seq<Entry>, clusters: seq<seq<Sent>>): seq<Element> {
    [Field(HEADER_ID, [])]
    + [Open(SEGMENT_ID, [Field(INFO_ID, [])] + [Open(TRACKS_ID, EntryTrees(entries))] + ClusterTrees(clusters))]
  }

  /** Sizes and numbers fit their fields. */
  predicate EntryFits(e: Entry) {
    && e.number < Pow256(8) && (e.delayNs.Some? ==> e.delayNs.value < Pow256(8)) && (e.channels.Some? ==> e.channels.value < Pow256(8))
    && Codable(|e.codec|, 8) && (e.private.Some? ==> Codable(|e.private.value|, 8)) && (e.rate.Some? ==> Codable(|e.rate.value|, 8))
  }

  predicate BlockFits(b: Sent) {
    Codable(b.track, b.width) && Codable(|BlockData(b)|, 8)
  }

  /** Bits five and six of the flags, counted from the highest, are the lacing (section 10.1 of RFC 9559). */
  predicate Unlaced(b: Sent) {
    b.flags % 8 < 2
  }

  // ---- Reading it ----

  /** These elements are well formed and take what was read so far from one to the other. */
  ghost predicate Reads(es: seq<Element>, doc: Doc, after: Doc) {
    Wellformed(es) && Visit(es, doc) == Ok(after)
  }

  lemma ReadsNone(doc: Doc)
    ensures Reads([], doc, doc)
  {
  }

  lemma {:induction false} ReadsThen(a: seq<Element>, b: seq<Element>, doc: Doc, between: Doc, after: Doc)
    requires Reads(a, doc, between) && Reads(b, between, after)
    ensures Reads(a + b, doc, after)
  {
    if a == [] {
      assert a + b == b;
    } else {
      assert (a + b)[0] == a[0] && (a + b)[1..] == a[1..] + b;
      hide VintOf, Took, Opened;
      match a[0]
      case Master(id, size, children) => ReadsThen(a[1..], b, Visit(children, Opened(doc, VintOf(id, true).value)).value, between, after);
      case Leaf(id, size, data) => ReadsThen(a[1..], b, Took(doc, VintOf(id, true).value, data).value, between, after);
    }
  }

  lemma ReadsOpen(id: seq<Byte>, value: nat, children: seq<Element>, doc: Doc, after: Doc)
    requires IsField(id) && VintOf(id, true).value == value && Descends(value) && Reads(children, Opened(doc, value), after)
    ensures Reads([Open(id, children)], doc, after)
  {
    assert Pow128(8) - 1 < Pow128(8);
    CodedIsField(Pow128(8) - 1, 8);
    ReadsMaster(id, Coded(Pow128(8) - 1, 8), children, doc, after);
  }

  lemma ReadsMaster(id: seq<Byte>, size: seq<Byte>, children: seq<Element>, doc: Doc, after: Doc)
    requires IsField(id) && IsField(size) && Descends(VintOf(id, true).value) && Reads(children, Opened(doc, VintOf(id, true).value), after)
    ensures Reads([Master(id, size, children)], doc, after)
  {
    hide VintOf, Took, Opened, IsField, Descends;
    var es := [Master(id, size, children)];
    assert es[1..] == [];
    assert Wellformed(es[1..]) && Visit(es[1..], after) == Ok(after);
    assert Wellformed(es);
  }

  lemma ReadsField(id: seq<Byte>, value: nat, data: seq<Byte>, doc: Doc, after: Doc)
    requires IsField(id) && VintOf(id, true).value == value && !Descends(value) && Codable(|data|, 8) && Took(doc, value, data) == Ok(after)
    ensures Reads([Field(id, data)], doc, after)
  {
    CodedReads(|data|, 8);
    hide VintOf, Took, IsField, Descends, Coded;
    var es := [Field(id, data)];
    assert es[1..] == [];
    assert Wellformed(es[1..]) && Visit(es[1..], after) == Ok(after);
    assert Wellformed(es);
  }

  lemma BigEndianOne(a: Byte)
    ensures BigEndian([a]) == a
  {
    assert [a][..0] == [];
  }

  lemma OneByteId(b: Byte)
    requires b >= 128
    ensures IsField([b]) && VintOf([b], true).value == b
  {
    BigEndianOne(b);
    assert [b] + [b][1..] == [b];
  }

  lemma TwoByteId(a: Byte, b: Byte)
    requires 64 <= a < 128
    ensures IsField([a, b]) && VintOf([a, b], true).value == 256 * a + b
  {
    BigEndianOne(a);
    NextDigit(a, [], b);
    assert [a] + ([] + [b]) == [a, b] == [a] + [a, b][1..] && [a] + [] == [a];
  }

  lemma FourByteId(a: Byte, b: Byte, c: Byte, d: Byte)
    requires 16 <= a < 32
    ensures IsField([a, b, c, d]) && VintOf([a, b, c, d], true).value == 256 * (256 * (256 * a + b) + c) + d
  {
    BigEndianOne(a);
    NextDigit(a, [], b);
    NextDigit(a, [b], c);
    NextDigit(a, [b, c], d);
    assert [a] + ([] + [b]) == [a] + [b] && [a] + [] == [a] && [b] + [c] == [b, c];
    assert [a] + ([b, c] + [d]) == [a, b, c, d] == [a] + [a, b, c, d][1..];
  }

  /** What was read before, and one more track whose entry is open. */
  function With(doc: Doc, t: Track): Doc {
    Doc(doc.tracks + [t], true, doc.blocks)
  }

  function TrackOf(e: Entry): Track {
    Track(e.number, e.codec, e.private, e.channels.GetOr(1), e.rate, e.delayNs.GetOr(0))
  }

  lemma EntryField(id: seq<Byte>, value: nat, data: seq<Byte>, doc: Doc, t: Track)
    requires IsField(id) && VintOf(id, true).value == value && !Descends(value) && Codable(|data|, 8)
    requires value != SIMPLE_BLOCK && value != BLOCK
    ensures Reads([Field(id, data)], With(doc, t), With(doc, WithField(t, value, data)))
  {
    hide WithField, VintOf, IsField;
    var t' := WithField(t, value, data);
    assert (doc.tracks + [t])[|doc.tracks + [t]| - 1 := t'] == doc.tracks + [t'];
    ReadsField(id, value, data, With(doc, t), With(doc, t'));
  }

  lemma OptionalField(id: seq<Byte>, value: nat, data: Option<seq<Byte>>, doc: Doc, t: Track)
    requires IsField(id) && VintOf(id, true).value == value && !Descends(value) && (data.Some? ==> Codable(|data.value|, 8))
    requires value != SIMPLE_BLOCK && value != BLOCK
    ensures Reads(Optional(id, data), With(doc, t), With(doc, if data.None? then t else WithField(t, value, data.value)))
  {
    hide WithField, VintOf, IsField, Descends, Reads;
    match data
    case None => ReadsNone(With(doc, t));
    case Some(bytes) => EntryField(id, value, bytes, doc, t);
  }

  lemma FieldSet(t: Track, data: seq<Byte>)
    ensures WithField(t, TRACK_NUMBER, data) == t.(number := BigEndian(data)) && WithField(t, CODEC_ID, data) == t.(codec := data)
    ensures WithField(t, CODEC_PRIVATE, data) == t.(head := Some(data)) && WithField(t, CODEC_DELAY, data) == t.(delayNs := BigEndian(data))
    ensures WithField(t, SAMPLING_FREQUENCY, data) == t.(rate := Some(data)) && WithField(t, CHANNELS, data) == t.(channels := BigEndian(data))
  {
  }

  lemma EightIsCodable()
    ensures Codable(8, 8)
  {
    assert Pow128(8) == 128 * Pow128(7);
  }

  /** What the audio element of an entry holds: its rate and its channels. */
  lemma AudioReads(e: Entry, doc: Doc, t: Track)
    requires EntryFits(e)
    ensures Reads(AudioFields(e),
                  With(doc, t), With(doc, t.(rate := if e.rate.None? then t.rate else e.rate, channels := e.channels.GetOr(t.channels))))
  {
    EightIsCodable();
    OneByteId(0xb5);
    OneByteId(0x9f);
    if e.channels.Some? { DigitsRead(e.channels.value, 8); }
    LeafIds();
    hide VintOf, IsField, Reads, Codable, Descends, With, WithField;
    FieldSet(t, e.rate.GetOr([]));
    var rated := t.(rate := if e.rate.None? then t.rate else e.rate);
    var done := rated.(channels := e.channels.GetOr(t.channels));
    OptionalField(SAMPLING_FREQUENCY_ID, SAMPLING_FREQUENCY, e.rate, doc, t);
    FieldSet(rated, Number(e.channels).GetOr([]));
    OptionalField(CHANNELS_ID, CHANNELS, Number(e.channels), doc, rated);
    ReadsThen(Optional(SAMPLING_FREQUENCY_ID, e.rate), Optional(CHANNELS_ID, Number(e.channels)), With(doc, t), With(doc, rated), With(doc, done));
  }

  /** The fields every entry has. */
  lemma NameReads(e: Entry, doc: Doc, t: Track)
    requires EntryFits(e)
    ensures Reads(NameFields(e),
                  With(doc, t), With(doc, t.(number := e.number, codec := e.codec)))
  {
    EightIsCodable();
    OneByteId(0xd7);
    OneByteId(0x86);
    DigitsRead(e.number, 8);
    LeafIds();
    hide VintOf, IsField, Reads, Codable, Descends, With, WithField;
    FieldSet(t, Digits(e.number, 8));
    var numbered := t.(number := e.number);
    EntryField(TRACK_NUMBER_ID, TRACK_NUMBER, Digits(e.number, 8), doc, t);
    FieldSet(numbered, e.codec);
    EntryField(CODEC_ID_ID, CODEC_ID, e.codec, doc, numbered);
    ReadsThen([Field(TRACK_NUMBER_ID, Digits(e.number, 8))], [Field(CODEC_ID_ID, e.codec)],
              With(doc, t), With(doc, numbered), With(doc, numbered.(codec := e.codec)));
  }

  /** The fields an entry may have. */
  lemma CodecReads(e: Entry, doc: Doc, t: Track)
    requires EntryFits(e) && t.head.None?
    ensures Reads(CodecFields(e),
                  With(doc, t), With(doc, t.(head := e.private, delayNs := e.delayNs.GetOr(t.delayNs))))
  {
    EightIsCodable();
    TwoByteId(0x63, 0xa2);
    TwoByteId(0x56, 0xaa);
    if e.delayNs.Some? { DigitsRead(e.delayNs.value, 8); }
    LeafIds();
    hide VintOf, IsField, Reads, Codable, Descends, With, WithField;
    FieldSet(t, e.private.GetOr([]));
    var headed := t.(head := e.private);
    OptionalField(CODEC_PRIVATE_ID, CODEC_PRIVATE, e.private, doc, t);
    FieldSet(headed, Number(e.delayNs).GetOr([]));
    OptionalField(CODEC_DELAY_ID, CODEC_DELAY, Number(e.delayNs), doc, headed);
    ReadsThen(Optional(CODEC_PRIVATE_ID, e.private), Optional(CODEC_DELAY_ID, Number(e.delayNs)),
              With(doc, t), With(doc, headed), With(doc, headed.(delayNs := e.delayNs.GetOr(t.delayNs))));
  }

  lemma EntryReads(e: Entry, doc: Doc)
    requires EntryFits(e)
    ensures Reads([EntryTree(e)], doc, With(doc, TrackOf(e)))
  {
    hide VintOf, IsField, Reads, Codable, Field, Open, NameFields, CodecFields, AudioFields, With, Descends, EntryFits;
    OneByteId(0xae);
    OneByteId(0xe1);
    MasterIds();
    var t0 := Track(0, [], None, 1, None, 0);
    var t1 := t0.(number := e.number, codec := e.codec);
    var t2 := t1.(head := e.private, delayNs := e.delayNs.GetOr(0));
    var done := With(doc, TrackOf(e));
    NameReads(e, doc, t0);
    CodecReads(e, doc, t1);
    AudioReads(e, doc, t2);
    NotOpened(With(doc, t2), AUDIO);
    EntryOpened(doc);
    ReadsOpen(AUDIO_ID, AUDIO, AudioFields(e), With(doc, t2), done);
    ReadsThen(NameFields(e), CodecFields(e), With(doc, t0), With(doc, t1), With(doc, t2));
    ReadsThen(NameFields(e) + CodecFields(e), [Open(AUDIO_ID, AudioFields(e))], With(doc, t0), With(doc, t2), done);
    ReadsOpen(TRACK_ENTRY_ID, TRACK_ENTRY, NameFields(e) + CodecFields(e) + [Open(AUDIO_ID, AudioFields(e))], doc, done);
  }

  lemma MasterIds()
    ensures Descends(SEGMENT) && Descends(TRACKS) && Descends(TRACK_ENTRY) && Descends(AUDIO) && Descends(CLUSTER) && Descends(BLOCK_GROUP)
  {
  }

  lemma LeafIds()
    ensures !Descends(TRACK_NUMBER) && !Descends(CODEC_ID) && !Descends(CODEC_PRIVATE) && !Descends(CODEC_DELAY)
    ensures !Descends(SAMPLING_FREQUENCY) && !Descends(CHANNELS)
  {
  }

  lemma NotOpened(doc: Doc, id: nat)
    requires id != TRACK_ENTRY && id != CLUSTER
    ensures Opened(doc, id) == doc
  {
  }

  lemma EntryOpened(doc: Doc)
    ensures Opened(doc, TRACK_ENTRY) == With(doc, Track(0, [], None, 1, None, 0))
  {
  }

  /** A block is its track's number and its frame, which starts behind the flags. */
  lemma BlockParses(b: Sent)
    requires BlockFits(b)
    ensures ParseBlock(BlockData(b)) == if Unlaced(b) then Ok(Block(b.track, b.payload)) else Err(Laced)
  {
    var data, rest := BlockData(b), [b.time.0, b.time.1, b.flags] + b.payload;
    assert data == Coded(b.track, b.width) + rest;
    CodedReads(b.track, b.width);
    FieldReads(Coded(b.track, b.width), rest, false);
    assert data[b.width + 2] == b.flags && data[b.width + 3..] == b.payload;
  }

  function Heard(doc: Doc, b: Sent): Doc {
    doc.(blocks := doc.blocks + [Block(b.track, b.payload)])
  }

  lemma BlockReads(b: Sent, doc: Doc)
    requires BlockFits(b) && Unlaced(b) && !doc.inEntry
    ensures Reads([BlockTree(b)], doc, Heard(doc, b))
  {
    OneByteId(0xa3);
    OneByteId(0xa1);
    OneByteId(0xa0);
    BlockParses(b);
    hide VintOf, IsField, Reads, Codable, ParseBlock, BlockData;
    if b.grouped {
      ReadsField(BLOCK_ID, BLOCK, BlockData(b), doc, Heard(doc, b));
      ReadsOpen(BLOCK_GROUP_ID, BLOCK_GROUP, [Field(BLOCK_ID, BlockData(b))], doc, Heard(doc, b));
    } else {
      ReadsField(SIMPLE_BLOCK_ID, SIMPLE_BLOCK, BlockData(b), doc, Heard(doc, b));
    }
  }

  function Parsed(blocks: seq<Sent>): seq<Block> {
    if blocks == [] then [] else [Block(blocks[0].track, blocks[0].payload)] + Parsed(blocks[1..])
  }

  predicate BlocksOk(blocks: seq<Sent>) {
    forall b :: b in blocks ==> BlockFits(b) && Unlaced(b)
  }

  lemma {:induction false} BlocksRead(blocks: seq<Sent>, doc: Doc)
    requires BlocksOk(blocks) && !doc.inEntry
    ensures Reads(BlockTrees(blocks), doc, doc.(blocks := doc.blocks + Parsed(blocks)))
  {
    hide Reads, BlockFits, BlockTree, BlockData, Unlaced;
    if blocks == [] {
      ReadsNone(doc);
      assert doc.blocks + [] == doc.blocks;
    } else {
      var after := Heard(doc, blocks[0]);
      BlockReads(blocks[0], doc);
      BlocksRead(blocks[1..], after);
      assert after.blocks + Parsed(blocks[1..]) == doc.blocks + Parsed(blocks);
      ReadsThen([BlockTree(blocks[0])], BlockTrees(blocks[1..]), doc, after, doc.(blocks := doc.blocks + Parsed(blocks)));
    }
  }

  lemma ClusterReads(blocks: seq<Sent>, doc: Doc)
    requires BlocksOk(blocks)
    ensures Reads([Open(CLUSTER_ID, [Field(TIMESTAMP_ID, [0, 0])] + BlockTrees(blocks))], doc,
                  Doc(doc.tracks, false, doc.blocks + Parsed(blocks)))
  {
    var inside := doc.(inEntry := false);
    var after := inside.(blocks := doc.blocks + Parsed(blocks));
    FourByteId(0x1f, 0x43, 0xb6, 0x75);
    OneByteId(0xe7);
    EightIsCodable();
    ReadsField(TIMESTAMP_ID, 0xe7, [0, 0], inside, inside);
    hide VintOf, IsField, Reads, Codable, BlocksOk;
    BlocksRead(blocks, inside);
    ReadsThen([Field(TIMESTAMP_ID, [0, 0])], BlockTrees(blocks), inside, inside, after);
    ReadsOpen(CLUSTER_ID, CLUSTER, [Field(TIMESTAMP_ID, [0, 0])] + BlockTrees(blocks), doc, after);
  }

  lemma {:induction false} ParsedConcat(a: seq<Sent>, b: seq<Sent>)
    ensures Parsed(a + b) == Parsed(a) + Parsed(b)
  {
    if a == [] {
      assert a + b == b;
    } else {
      assert (a + b)[1..] == a[1..] + b;
      ParsedConcat(a[1..], b);
    }
  }

  lemma {:induction false} ClustersRead(clusters: seq<seq<Sent>>, doc: Doc) returns (after: Doc)
    requires forall blocks :: blocks in clusters ==> BlocksOk(blocks)
    ensures Reads(ClusterTrees(clusters), doc, after)
    ensures after.tracks == doc.tracks && after.blocks == doc.blocks + Parsed(Joined(clusters))
  {
    hide Reads, BlocksOk, Open, BlockTree, Parsed, ClusterTrees, Field;
    ClusterTreesStep(clusters);
    after := doc;
    if clusters == [] {
      ReadsNone(doc);
      assert Joined(clusters) == [] && doc.blocks + [] == doc.blocks;
      assert Parsed([]) == [] by { NoneParsed(); }
    } else {
      JoinedFront(clusters);
      var a, rest := Parsed(clusters[0]), Parsed(Joined(clusters[1..]));
      var first := Doc(doc.tracks, false, doc.blocks + a);
      ClusterReads(clusters[0], doc);
      after := ClustersRead(clusters[1..], first);
      ParsedConcat(clusters[0], Joined(clusters[1..]));
      assert (doc.blocks + a) + rest == doc.blocks + (a + rest);
      ReadsThen([Open(CLUSTER_ID, [Field(TIMESTAMP_ID, [0, 0])] + BlockTrees(clusters[0]))], ClusterTrees(clusters[1..]), doc, first, after);
    }
  }

  lemma NoneParsed()
    ensures Parsed([]) == []
  {
  }

  lemma ClusterTreesStep(clusters: seq<seq<Sent>>)
    ensures ClusterTrees(clusters) ==
            if clusters == [] then []
            else [Open(CLUSTER_ID, [Field(TIMESTAMP_ID, [0, 0])] + BlockTrees(clusters[0]))] + ClusterTrees(clusters[1..])
  {
  }

  function TracksOf(entries: seq<Entry>): seq<Track> {
    if entries == [] then [] else [TrackOf(entries[0])] + TracksOf(entries[1..])
  }

  lemma EntryTreesStep(entries: seq<Entry>)
    ensures EntryTrees(entries) == if entries == [] then [] else [EntryTree(entries[0])] + EntryTrees(entries[1..])
  {
  }

  lemma {:induction false} EntriesRead(entries: seq<Entry>, doc: Doc) returns (after: Doc)
    requires forall e :: e in entries ==> EntryFits(e)
    ensures Reads(EntryTrees(entries), doc, after)
    ensures after.tracks == doc.tracks + TracksOf(entries) && after.blocks == doc.blocks
  {
    hide Reads, EntryFits, TrackOf, EntryTree, EntryTrees;
    after := doc;
    if entries == [] {
      EntryTreesStep(entries);
      ReadsNone(doc);
    } else {
      var first := With(doc, TrackOf(entries[0]));
      var rest := TracksOf(entries[1..]);
      EntryReads(entries[0], doc);
      assert forall e :: e in entries[1..] ==> e in entries;
      after := EntriesRead(entries[1..], first);
      assert (doc.tracks + [TrackOf(entries[0])]) + rest == doc.tracks + ([TrackOf(entries[0])] + rest);
      ReadsThen([EntryTree(entries[0])], EntryTrees(entries[1..]), doc, first, after);
      EntryTreesStep(entries);
    }
  }

  predicate Writable(entries: seq<Entry>, clusters: seq<seq<Sent>>) {
    (forall e :: e in entries ==> EntryFits(e)) && (forall blocks :: blocks in clusters ==> BlocksOk(blocks))
  }

  lemma TracksRead(entries: seq<Entry>) returns (doc: Doc)
    requires forall e :: e in entries ==> EntryFits(e)
    ensures Reads([Field(INFO_ID, [])] + [Open(TRACKS_ID, EntryTrees(entries))], EMPTY, doc)
    ensures doc.tracks == TracksOf(entries) && doc.blocks == []
  {
    FourByteId(0x15, 0x49, 0xa9, 0x66);
    FourByteId(0x16, 0x54, 0xae, 0x6b);
    MasterIds();
    EightIsCodable();
    ReadsField(INFO_ID, 0x1549_a966, [], EMPTY, EMPTY);
    hide VintOf, IsField, Reads, Codable, EntryFits, Descends, Open, Field;
    doc := EntriesRead(entries, EMPTY);
    NotOpened(EMPTY, TRACKS);
    ReadsOpen(TRACKS_ID, TRACKS, EntryTrees(entries), EMPTY, doc);
    ReadsThen([Field(INFO_ID, [])], [Open(TRACKS_ID, EntryTrees(entries))], EMPTY, EMPTY, doc);
  }

  lemma RecordingReads(entries: seq<Entry>, clusters: seq<seq<Sent>>) returns (doc: Doc)
    requires Writable(entries, clusters)
    ensures Read(PrintAll(RecordingTree(entries, clusters)), EMPTY) == Ok(doc)
    ensures doc.tracks == TracksOf(entries) && doc.blocks == Parsed(Joined(clusters))
  {
    FourByteId(0x1a, 0x45, 0xdf, 0xa3);
    FourByteId(0x18, 0x53, 0x80, 0x67);
    MasterIds();
    EightIsCodable();
    ReadsField(HEADER_ID, 0x1a45_dfa3, [], EMPTY, EMPTY);
    hide VintOf, IsField, Reads, Codable, EntryFits, BlocksOk, Read, PrintAll, Descends, Open, Field;
    var tracked := TracksRead(entries);
    var front := [Field(INFO_ID, [])] + [Open(TRACKS_ID, EntryTrees(entries))];
    doc := ClustersRead(clusters, tracked);
    ReadsThen(front, ClusterTrees(clusters), EMPTY, tracked, doc);
    NotOpened(EMPTY, SEGMENT);
    ReadsOpen(SEGMENT_ID, SEGMENT, front + ClusterTrees(clusters), EMPTY, doc);
    ReadsThen([Field(HEADER_ID, [])], [Open(SEGMENT_ID, front + ClusterTrees(clusters))], EMPTY, EMPTY, doc);
    WholeReads(RecordingTree(entries, clusters), doc);
  }

  lemma WholeReads(es: seq<Element>, doc: Doc)
    requires Reads(es, EMPTY, doc)
    ensures Read(PrintAll(es), EMPTY) == Ok(doc)
  {
    WalkIsVisit(es);
  }

  // ---- What the remuxer takes ----

  /** `A_OPUS`, with or without a byte order mark. */
  predicate NamesOpus(codec: seq<Byte>) {
    codec == [0x41, 0x5f, 0x4f, 0x50, 0x55, 0x53] || codec == [0xef, 0xbb, 0xbf, 0x41, 0x5f, 0x4f, 0x50, 0x55, 0x53]
  }

  /** It begins with `OpusHead`. */
  predicate IsHead(private: Option<seq<Byte>>) {
    private.Some? && |private.value| >= 8 && private.value[..8] == [0x4f, 0x70, 0x75, 0x73, 0x48, 0x65, 0x61, 0x64]
  }

  /** The packets of one track, in order; blocks that hold nothing send none. */
  function Packets(blocks: seq<Sent>, number: nat): seq<seq<Byte>> {
    FlatMap((b: Sent) => if b.track == number && b.payload != [] then [b.payload] else [], blocks)
  }

  /**
   * A head made by section 5.1 of RFC 7845 for a track that came without one: version 1, the
   * channels, the pre-skip nearest to the delay at 48 kHz, the input rate, no gain, mapping family 0.
   */
  ghost predicate MadeHead(head: seq<Byte>, e: Entry, rate: Option<seq<Byte>> -> nat) {
    && |head| == 19 && IsHead(Some(head)) && head[8] == 1 && head[9] == e.channels.GetOr(1)
    && (forall p: nat :: 2_000_000_000 * p <= 96_000 * e.delayNs.GetOr(0) + 1_000_000_000 < 2_000_000_000 * (p + 1) ==>
          FromLittleEndian(head[10..12]) == p % 0x1_0000)
    && FromLittleEndian(head[12..16]) == rate(e.rate) % 0x1_0000_0000
    && head[16..] == [0, 0, 0]
  }

  lemma {:induction false} FirstOfTracks(before: seq<Entry>, mine: Entry, after: seq<Entry>)
    requires NamesOpus(mine.codec) && forall e :: e in before ==> !NamesOpus(e.codec)
    ensures FirstOpus(TracksOf(before + [mine] + after)) == Some(TrackOf(mine))
  {
    var all := before + [mine] + after;
    if before == [] {
      assert all[0] == mine;
    } else {
      assert all[0] == before[0] && all[1..] == before[1..] + [mine] + after;
      FirstOfTracks(before[1..], mine, after);
    }
  }

  lemma {:induction false} NoneOfTracks(entries: seq<Entry>)
    requires forall e :: e in entries ==> !NamesOpus(e.codec)
    ensures FirstOpus(TracksOf(entries)) == None
  {
    if entries != [] { NoneOfTracks(entries[1..]); }
  }

  lemma {:induction false} FramesArePackets(blocks: seq<Sent>, number: nat)
    ensures FramesOf(Parsed(blocks), number) == Packets(blocks, number)
  {
    if blocks != [] {
      assert Parsed(blocks)[1..] == Parsed(blocks[1..]);
      FramesArePackets(blocks[1..], number);
    }
  }

  /**
   * From bytes to audio: a recording is heard on its first Opus track, whatever tracks stand before
   * and after it. Its packets are the frames of that track's blocks, in order, whatever is sent on
   * other tracks between them. Its head is the track's own, or one made for it.
   */
  lemma RecordingIsHeard(
    before: seq<Entry>, mine: Entry, after: seq<Entry>, clusters: seq<seq<Sent>>, rate: Option<seq<Byte>> -> nat)
    requires Writable(before + [mine] + after, clusters)
    requires NamesOpus(mine.codec) && forall e :: e in before ==> !NamesOpus(e.codec)
    ensures var heard := WebmAudio(PrintAll(RecordingTree(before + [mine] + after, clusters)), rate);
            var packets := Packets(Joined(clusters), mine.number);
            if !IsHead(mine.private) && mine.channels.GetOr(1) > 2 then heard == Err(TooManyChannels)
            else if packets == [] then heard == Err(NoAudio)
            else heard.Ok? && heard.value.1 == packets
                 && (if IsHead(mine.private) then heard.value.0 == mine.private.value else MadeHead(heard.value.0, mine, rate))
  {
    var doc := RecordingReads(before + [mine] + after, clusters);
    FirstOfTracks(before, mine, after);
    FramesArePackets(Joined(clusters), mine.number);
    HeadIsRight(mine, rate);
    hide Read, PrintAll, RecordingTree, HeadOf, FirstOpus, FramesOf, Packets, Parsed, TracksOf, MadeHead, Writable;
  }

  lemma HeadIsRight(e: Entry, rate: Option<seq<Byte>> -> nat)
    ensures var head := HeadOf(TrackOf(e), rate);
            if IsHead(e.private) then head == Ok(e.private.value)
            else if e.channels.GetOr(1) > 2 then head == Err(TooManyChannels)
            else head.Ok? && MadeHead(head.value, e, rate)
  {
    if !IsHead(e.private) && e.channels.GetOr(1) <= 2 {
      var delay := e.delayNs.GetOr(0);
      var skip, input := LittleEndian(PreSkip(delay), 2), LittleEndian(rate(e.rate), 4);
      var head := HeadOf(TrackOf(e), rate).value;
      assert head == OPUS_HEAD + [1, e.channels.GetOr(1)] + skip + input + [0, 0, 0];
      assert head[10..12] == skip && head[12..16] == input && head[16..] == [0, 0, 0] && head[..8] == OPUS_HEAD;
      LittleEndianRoundTrip(PreSkip(delay), 2);
      LittleEndianRoundTrip(rate(e.rate), 4);
      assert Pow256(2) == 256 * Pow256(1) && Pow256(4) == 256 * Pow256(3) && Pow256(3) == 256 * Pow256(2);
      forall p: nat | 2_000_000_000 * p <= 96_000 * delay + 1_000_000_000 < 2_000_000_000 * (p + 1)
        ensures p == PreSkip(delay)
      {
      }
    }
  }

  /** Without an Opus track there is nothing to hear. */
  lemma NothingToHear(entries: seq<Entry>, clusters: seq<seq<Sent>>, rate: Option<seq<Byte>> -> nat)
    requires Writable(entries, clusters) && forall e :: e in entries ==> !NamesOpus(e.codec)
    ensures WebmAudio(PrintAll(RecordingTree(entries, clusters)), rate) == Err(NoOpusTrack)
  {
    var doc := RecordingReads(entries, clusters);
    NoneOfTracks(entries);
  }

  // ---- From the recorder to the player ----

  /** The file of a recording reads back, by RFC 3533, as the head and the packets that were recorded. */
  lemma RecordedIsPlayed(
    before: seq<Entry>, mine: Entry, after: seq<Entry>, clusters: seq<seq<Sent>>, rate: Option<seq<Byte>> -> nat, audio: seq<Plan>)
    requires Writable(before + [mine] + after, clusters)
    requires NamesOpus(mine.codec) && IsHead(mine.private) && forall e :: e in before ==> !NamesOpus(e.codec)
    requires Packets(Joined(clusters), mine.number) != [] && Packed(audio, Packets(Joined(clusters), mine.number))
    ensures var recording, packets := PrintAll(RecordingTree(before + [mine] + after, clusters)), Packets(Joined(clusters), mine.number);
            && WebmAudio(recording, rate) == Ok((mine.private.value, packets))
            && (IsOggOpus(Print(FilePlans(mine.private.value, audio)), mine.private.value, packets) <==> |mine.private.value| < 255 * 255)
  {
    hide PrintAll, RecordingTree, WebmAudio, Packets, IsOggOpus, Writable, NamesOpus, Packing, LastEnds, Print;
    RecordingIsHeard(before, mine, after, clusters, rate);
    if audio == [] { NoneFlat(); }
    FileReadsBack(mine.private.value, audio, Packets(Joined(clusters), mine.number));
  }

  lemma NoneFlat()
    ensures Flat([]) == []
  {
    assert PacketLists([]) == [];
  }
}
