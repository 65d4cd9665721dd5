/**
 * The WebM side of the remuxer: the walker over a recording's elements, and what it takes from
 * them. A recording is a tree of elements; the walker sees only its bytes.
 */
module Webm {
  import opened Wrappers
  import opened Bytes
  import opened OggOpus

  const SEGMENT: nat := 0x1853_8067
  const TRACKS: nat := 0x1654_ae6b
  const TRACK_ENTRY: nat := 0xae
  const TRACK_NUMBER: nat := 0xd7
  const CODEC_ID: nat := 0x86
  const CODEC_PRIVATE: nat := 0x63a2
  const CODEC_DELAY: nat := 0x56aa
  const AUDIO: nat := 0xe1
  const SAMPLING_FREQUENCY: nat := 0xb5
  const CHANNELS: nat := 0x9f
  const CLUSTER: nat := 0x1f43_b675
  const SIMPLE_BLOCK: nat := 0xa3
  const BLOCK_GROUP: nat := 0xa0
  const BLOCK: nat := 0xa1

  /** A master whose children are read one by one; what is not one is read or passed over as a leaf. */
  predicate Descends(id: nat) {
    id in {SEGMENT, TRACKS, TRACK_ENTRY, AUDIO, CLUSTER, BLOCK_GROUP}
  }

  datatype Track = Track(number: nat, codec: seq<Byte>, head: Option<seq<Byte>>, channels: nat, rate: Option<seq<Byte>>, delayNs: nat)

  datatype Block = Block(track: nat, frame: seq<Byte>)

  /** What was read so far; `inEntry` says that the last track's entry is still open to its fields. */
  datatype Doc = Doc(tracks: seq<Track>, inEntry: bool, blocks: seq<Block>)

  const EMPTY := Doc([], false, [])

  // ---- Variable-length numbers ----

  function BigEndian(bytes: seq<Byte>): nat {
    if bytes == [] then 0 else 256 * BigEndian(bytes[..|bytes| - 1]) + bytes[|bytes| - 1]
  }

  /** `Math.clz32(first) - 23`. */
  function VintLength(first: Byte): (n: nat)
    requires first != 0
    ensures 1 <= n <= 8
  {
    if first >= 128 then 1 else if first >= 64 then 2 else if first >= 32 then 3 else if first >= 16 then 4
    else if first >= 8 then 5 else if first >= 4 then 6 else if first >= 2 then 7 else 8
  }

  /** `(0xff >> length) + 1`. */
  function MarkerRange(length: nat): nat
    requires 1 <= length <= 8
  {
    [128, 64, 32, 16, 8, 4, 2, 1][length - 1]
  }

  datatype Vint = Vint(value: nat, length: nat, unknown: bool)

  predicate AllOnes(bytes: seq<Byte>) {
    forall i :: 0 <= i < |bytes| ==> bytes[i] == 255
  }

  /** The number in these bytes, which are just as many as the first one says. */
  function VintOf(field: seq<Byte>, keepMarker: bool): Vint
    requires IsField(field)
  {
    var n := |field|;
    var lead := if keepMarker then field[0] else field[0] % MarkerRange(n);
    Vint(BigEndian([lead] + field[1..]), n, !keepMarker && lead == MarkerRange(n) - 1 && AllOnes(field[1..]))
  }

  predicate IsField(field: seq<Byte>) {
    field != [] && field[0] != 0 && |field| == VintLength(field[0])
  }

  function ReadVint(b: seq<Byte>, keepMarker: bool): (r: Result<Vint, RemuxError>)
    ensures r.Ok? ==> 1 <= r.value.length <= |b|
  {
    if b == [] || b[0] == 0 then Err(NotWebm)
    else if VintLength(b[0]) > |b| then Err(CutShort)
    else Ok(VintOf(b[..VintLength(b[0])], keepMarker))
  }

  lemma AllOnesGrows(bytes: seq<Byte>, byte: Byte)
    ensures AllOnes(bytes + [byte]) <==> AllOnes(bytes) && byte == 255
  {
    assert forall i :: 0 <= i < |bytes| ==> (bytes + [byte])[i] == bytes[i];
    assert (bytes + [byte])[|bytes|] == byte;
  }

  lemma NoneAllOnes()
    ensures AllOnes([])
  {
  }

  lemma NextDigit(lead: Byte, digits: seq<Byte>, byte: Byte)
    ensures BigEndian([lead] + (digits + [byte])) == 256 * BigEndian([lead] + digits) + byte
  {
    var all := [lead] + (digits + [byte]);
    assert all[..|all| - 1] == [lead] + digits;
  }

  method ReadVintAt(bytes: seq<Byte>, at: nat, keepMarker: bool) returns (r: Result<Vint, RemuxError>)
    requires at <= |bytes|
    ensures r == ReadVint(bytes[at..], keepMarker)
  {
    if at == |bytes| || bytes[at] == 0 { return Err(NotWebm); }
    var first := bytes[at];
    var length := VintLength(first);
    if at + length > |bytes| { return Err(CutShort); }
    ghost var field := bytes[at..][..length];
    var lead: Byte := if keepMarker then first else first % MarkerRange(length);
    var value: nat := lead;
    var allOnes := value == MarkerRange(length) - 1;
    assert [lead] + field[1..1] == [lead];
    assert BigEndian([lead]) == lead by { assert [lead][..0] == []; }
    hide MarkerRange, AllOnes;
    assert AllOnes(field[1..1]) by { NoneAllOnes(); assert field[1..1] == []; }
    for i := 1 to length
      invariant value == BigEndian([lead] + field[1..i])
      invariant allOnes == (lead == MarkerRange(length) - 1 && AllOnes(field[1..i]))
    {
      var byte := bytes[at + i];
      assert byte == field[i];
      assert field[1..i + 1] == field[1..i] + [byte];
      NextDigit(lead, field[1..i], byte);
      AllOnesGrows(field[1..i], byte);
      value := value * 256 + byte;
      if byte != 255 { allOnes := false; }
    }
    assert field[1..length] == field[1..];
    r := Ok(Vint(value, length, !keepMarker && allOnes));
  }

  // ---- One element ----

  function Opened(doc: Doc, id: nat): Doc {
    if id == TRACK_ENTRY then Doc(doc.tracks + [Track(0, [], None, 1, None, 0)], true, doc.blocks)
    else if id == CLUSTER then doc.(inEntry := false)
    else doc
  }

  function WithField(t: Track, id: nat, data: seq<Byte>): Track {
    if id == TRACK_NUMBER then t.(number := BigEndian(data))
    else if id == CODEC_ID then t.(codec := data)
    else if id == CODEC_PRIVATE then t.(head := Some(data))
    else if id == CODEC_DELAY then t.(delayNs := BigEndian(data))
    else if id == CHANNELS then t.(channels := BigEndian(data))
    else if id == SAMPLING_FREQUENCY then t.(rate := Some(data))
    else t
  }

  function ParseBlock(data: seq<Byte>): Result<Block, RemuxError> {
    match ReadVint(data, false)
    case Err(e) => Err(e)
    case Ok(track) =>
      var flags := if track.length + 2 < |data| then data[track.length + 2] else 0;
      if (flags / 2) % 4 != 0 then Err(Laced)
      else Ok(Block(track.value, if track.length + 3 <= |data| then data[track.length + 3..] else []))
  }

  function Took(doc: Doc, id: nat, data: seq<Byte>): Result<Doc, RemuxError> {
    var noted := if doc.inEntry && doc.tracks != []
                 then doc.(tracks := doc.tracks[|doc.tracks| - 1 := WithField(doc.tracks[|doc.tracks| - 1], id, data)])
                 else doc;
    if id == SIMPLE_BLOCK || id == BLOCK then
      match ParseBlock(data)
      case Err(e) => Err(e)
      case Ok(block) => Ok(noted.(blocks := noted.blocks + [block]))
    else Ok(noted)
  }

  // ---- The walk ----

  datatype Item = Enter(id: nat) | Leave(id: nat, data: seq<Byte>)

  /** The element at the front of the bytes, as far as the walker takes it, and the bytes behind it. */
  function NextItem(b: seq<Byte>): (r: Result<(Item, seq<Byte>), RemuxError>)
    ensures r.Ok? ==> |r.value.1| < |b|
  {
    match ReadVint(b, true)
    case Err(e) => Err(e)
    case Ok(id) =>
      match ReadVint(b[id.length..], false)
      case Err(e) => Err(e)
      case Ok(size) =>
        var rest := b[id.length + size.length..];
        if Descends(id.value) then Ok((Enter(id.value), rest))
        else if size.unknown then Err(UnknownSize)
        else if size.value <= |rest| then Ok((Leave(id.value, rest[..size.value]), rest[size.value..]))
        else Ok((Leave(id.value, rest), []))
  }

  function TakeItem(doc: Doc, item: Item): Result<Doc, RemuxError> {
    match item
    case Enter(id) => Ok(Opened(doc, id))
    case Leave(id, data) => Took(doc, id, data)
  }

  function Read(b: seq<Byte>, doc: Doc): Result<Doc, RemuxError>
    decreases |b|
  {
    if b == [] then Ok(doc)
    else
      match NextItem(b)
      case Err(e) => Err(e)
      case Ok((item, rest)) =>
        match TakeItem(doc, item)
        case Err(e) => Err(e)
        case Ok(taken) => Read(rest, taken)
  }

  method ReadItemAt(bytes: seq<Byte>, at: nat) returns (r: Result<(Item, nat), RemuxError>)
    requires at < |bytes|
    ensures match NextItem(bytes[at..])
            case Err(e) => r == Err(e)
            case Ok((item, rest)) => r.Ok? && r.value.0 == item && at < r.value.1 <= |bytes| && bytes[r.value.1..] == rest
  {
    hide VintOf;
    ghost var b := bytes[at..];
    var id := ReadVintAt(bytes, at, true);
    if id.Err? { return Err(id.error); }
    assert b[id.value.length..] == bytes[at + id.value.length..];
    var size := ReadVintAt(bytes, at + id.value.length, false);
    if size.Err? { return Err(size.error); }
    var start := at + id.value.length + size.value.length;
    ghost var rest := bytes[start..];
    assert b[id.value.length + size.value.length..] == rest;
    if Descends(id.value.value) { return Ok((Enter(id.value.value), start)); }
    if size.value.unknown { return Err(UnknownSize); }
    var end := if start + size.value.value <= |bytes| then start + size.value.value else |bytes|;
    assert bytes[start..end] == rest[..end - start];
    assert bytes[end..] == rest[end - start..];
    assert rest[..|rest|] == rest;
    r := Ok((Leave(id.value.value, bytes[start..end]), end));
  }

  method ReadWebm(bytes: seq<Byte>) returns (r: Result<Doc, RemuxError>)
    ensures r == Read(bytes, EMPTY)
  {
    hide NextItem, Took, Opened;
    var doc := EMPTY;
    var at := 0;
    assert bytes[0..] == bytes;
    while at < |bytes|
      invariant at <= |bytes|
      invariant Read(bytes, EMPTY) == Read(bytes[at..], doc)
    {
      var next := ReadItemAt(bytes, at);
      if next.Err? { return Err(next.error); }
      var taken := TakeItem(doc, next.value.0);
      if taken.Err? { return Err(taken.error); }
      doc := taken.value;
      at := next.value.1;
    }
    r := Ok(doc);
  }

  // ---- Recordings as trees ----

  /** An element with its id and size fields as written; a master's size may say anything, also "unknown". */
  datatype Element = Master(id: seq<Byte>, size: seq<Byte>, children: seq<Element>) | Leaf(id: seq<Byte>, size: seq<Byte>, data: seq<Byte>)

  function PrintAll(es: seq<Element>): seq<Byte> {
    if es == [] then []
    else
      match es[0]
      case Master(id, size, children) => id + size + (PrintAll(children) + PrintAll(es[1..]))
      case Leaf(id, size, data) => id + size + (data + PrintAll(es[1..]))
  }

  predicate Wellformed(es: seq<Element>) {
    es == [] ||
    (&& IsField(es[0].id) && IsField(es[0].size) && Wellformed(es[1..])
     && match es[0]
        case Master(id, size, children) => Descends(VintOf(id, true).value) && Wellformed(children)
        case Leaf(id, size, data) =>
          !Descends(VintOf(id, true).value) && !VintOf(size, false).unknown && VintOf(size, false).value == |data|)
  }

  /** The elements of a recording taken in document order; no size field is looked at. */
  function Visit(es: seq<Element>, doc: Doc): Result<Doc, RemuxError>
    requires Wellformed(es)
  {
    if es == [] then Ok(doc)
    else
      match es[0]
      case Master(id, size, children) =>
        (match Visit(children, Opened(doc, VintOf(id, true).value))
         case Err(e) => Err(e)
         case Ok(inner) => Visit(es[1..], inner))
      case Leaf(id, size, data) =>
        (match Took(doc, VintOf(id, true).value, data)
         case Err(e) => Err(e)
         case Ok(taken) => Visit(es[1..], taken))
  }

  function Then(first: Result<Doc, RemuxError>, rest: seq<Byte>): Result<Doc, RemuxError> {
    match first
    case Err(e) => Err(e)
    case Ok(doc) => Read(rest, doc)
  }

  lemma FieldReads(field: seq<Byte>, rest: seq<Byte>, keepMarker: bool)
    requires IsField(field)
    ensures ReadVint(field + rest, keepMarker) == Ok(VintOf(field, keepMarker))
    ensures (field + rest)[|field|..] == rest
  {
    assert (field + rest)[..|field|] == field;
  }

  lemma HeaderReads(id: seq<Byte>, size: seq<Byte>, rest: seq<Byte>)
    requires IsField(id) && IsField(size)
    ensures var b := id + size + rest;
            && b != [] && ReadVint(b, true) == Ok(VintOf(id, true))
            && ReadVint(b[|id|..], false) == Ok(VintOf(size, false))
            && b[|id| + |size|..] == rest
  {
    var b := id + size + rest;
    assert b == id + (size + rest);
    FieldReads(id, size + rest, true);
    FieldReads(size, rest, false);
  }

  lemma MasterReads(id: seq<Byte>, size: seq<Byte>, rest: seq<Byte>, doc: Doc)
    requires IsField(id) && IsField(size) && Descends(VintOf(id, true).value)
    ensures Read(id + size + rest, doc) == Read(rest, Opened(doc, VintOf(id, true).value))
  {
    HeaderReads(id, size, rest);
    assert NextItem(id + size + rest) == Ok((Enter(VintOf(id, true).value), rest));
  }

  lemma LeafReads(id: seq<Byte>, size: seq<Byte>, data: seq<Byte>, rest: seq<Byte>, doc: Doc)
    requires IsField(id) && IsField(size) && !Descends(VintOf(id, true).value)
    requires !VintOf(size, false).unknown && VintOf(size, false).value == |data|
    ensures Read(id + size + (data + rest), doc) == Then(Took(doc, VintOf(id, true).value, data), rest)
  {
    HeaderReads(id, size, data + rest);
    assert (data + rest)[..|data|] == data && (data + rest)[|data|..] == rest;
    assert NextItem(id + size + (data + rest)) == Ok((Leave(VintOf(id, true).value, data), rest));
  }

  /** Walking the bytes of a tree, whatever follows, is visiting the tree first. */
  lemma {:induction false} TreeReads(es: seq<Element>, tail: seq<Byte>, doc: Doc)
    requires Wellformed(es)
    ensures Read(PrintAll(es) + tail, doc) == Then(Visit(es, doc), tail)
    decreases es
  {
    hide VintOf, Took, Opened, NextItem, IsField;
    if es == [] {
      assert PrintAll(es) + tail == tail;
    } else {
      var behind := PrintAll(es[1..]) + tail;
      match es[0]
      case Master(id, size, children) =>
        assert PrintAll(es) + tail == id + size + (PrintAll(children) + behind);
        MasterReads(id, size, PrintAll(children) + behind, doc);
        var inside := Opened(doc, VintOf(id, true).value);
        TreeReads(children, behind, inside);
        if Visit(children, inside).Ok? { TreeReads(es[1..], tail, Visit(children, inside).value); }
      case Leaf(id, size, data) =>
        assert PrintAll(es) + tail == id + size + (data + behind);
        LeafReads(id, size, data, behind, doc);
        var took := Took(doc, VintOf(id, true).value, data);
        if took.Ok? { TreeReads(es[1..], tail, took.value); }
    }
  }

  /**
   * The walker reads every recording as its tree says: masters of known, unknown or wrong size are
   * all read the same, and only the leaves' sizes are measured.
   */
  lemma WalkIsVisit(es: seq<Element>)
    requires Wellformed(es)
    ensures Read(PrintAll(es), EMPTY) == Visit(es, EMPTY)
  {
    TreeReads(es, [], EMPTY);
    assert PrintAll(es) + [] == PrintAll(es);
  }

  // ---- From a recording to an Ogg file ----

  const A_OPUS: seq<Byte> := [0x41, 0x5f, 0x4f, 0x50, 0x55, 0x53]
  const BYTE_ORDER_MARK: seq<Byte> := [0xef, 0xbb, 0xbf]

  /** The codec name decodes to `A_OPUS`; the decoder drops a byte order mark. */
  predicate IsOpus(t: Track) {
    t.codec == A_OPUS || t.codec == BYTE_ORDER_MARK + A_OPUS
  }

  function FirstOpus(tracks: seq<Track>): Option<Track> {
    if tracks == [] then None else if IsOpus(tracks[0]) then Some(tracks[0]) else FirstOpus(tracks[1..])
  }

  /** `Math.round(delayNs * 48000 / 1e9)`. */
  function PreSkip(delayNs: nat): nat {
    (delayNs * 96_000 + 1_000_000_000) / 2_000_000_000
  }

  /** The head a track came with, or one made for it; `rate` reads the sampling frequency as a word. */
  function HeadOf(t: Track, rate: Option<seq<Byte>> -> nat): Result<seq<Byte>, RemuxError> {
    if t.head.Some? && |t.head.value| >= 8 && t.head.value[..8] == OPUS_HEAD then Ok(t.head.value)
    else if t.channels > 2 then Err(TooManyChannels)
    else Ok(OPUS_HEAD + [1, t.channels] + LittleEndian(PreSkip(t.delayNs), 2) + LittleEndian(rate(t.rate), 4) + [0, 0, 0])
  }

  function FramesOf(blocks: seq<Block>, track: nat): seq<seq<Byte>> {
    if blocks == [] then []
    else
      var rest := FramesOf(blocks[1..], track);
      if blocks[0].track == track && blocks[0].frame != [] then [blocks[0].frame] + rest else rest
  }

  /** The head and the packets a recording's Opus track comes to. */
  function AudioOf(doc: Doc, rate: Option<seq<Byte>> -> nat): (r: Result<(seq<Byte>, seq<seq<Byte>>), RemuxError>)
    ensures r.Ok? ==> r.value.1 != []
  {
    match FirstOpus(doc.tracks)
    case None => Err(NoOpusTrack)
    case Some(track) =>
      match HeadOf(track, rate)
      case Err(e) => Err(e)
      case Ok(head) =>
        var packets := FramesOf(doc.blocks, track.number);
        if packets == [] then Err(NoAudio) else Ok((head, packets))
  }

  /** The head and packets of a recording's bytes. */
  function WebmAudio(bytes: seq<Byte>, rate: Option<seq<Byte>> -> nat): (r: Result<(seq<Byte>, seq<seq<Byte>>), RemuxError>)
    ensures r.Ok? ==> r.value.1 != []
  {
    match Read(bytes, EMPTY)
    case Err(e) => Err(e)
    case Ok(doc) => AudioOf(doc, rate)
  }

  /**
   * `webmOpusToOgg`: whatever the recording holds, the error it stops at, or a file that read back
   * by RFC 3533 gives its head and every one of its non-empty packets.
   */
  method WebmOpusToOgg(bytes: seq<Byte>, rate: Option<seq<Byte>> -> nat) returns (r: Result<seq<Byte>, RemuxError>, ghost audio: seq<Plan>)
    ensures WebmAudio(bytes, rate).Err? ==> r == Err(WebmAudio(bytes, rate).error)
    ensures WebmAudio(bytes, rate).Ok? ==>
              var (head, packets) := WebmAudio(bytes, rate).value;
              && (r.Ok? <==> AllFit(packets, |packets|)) && (r.Err? ==> r.error == PacketTooLarge)
              && (r.Ok? ==> audio != [] && Packed(audio, packets) && r.value == Print(FilePlans(head, audio)))
              && (r.Ok? ==> (IsOggOpus(r.value, head, packets) <==> OggPages.Segments(head) <= 255))
  {
    audio := [];
    var read := ReadWebm(bytes);
    if read.Err? { return Err(read.error), audio; }
    var doc := read.value;
    var found := AudioOf(doc, rate);
    if found.Err? { return Err(found.error), audio; }
    r, audio := PackFile(found.value.0, found.value.1);
  }

  /** From a recording's tree to an Ogg reader: nothing is lost, added or reordered on the way. */
  lemma RecordingToReader(es: seq<Element>, rate: Option<seq<Byte>> -> nat, doc: Doc, head: seq<Byte>, packets: seq<seq<Byte>>, audio: seq<Plan>)
    requires Wellformed(es) && Visit(es, EMPTY) == Ok(doc) && AudioOf(doc, rate) == Ok((head, packets))
    requires audio != [] && Packed(audio, packets)
    ensures WebmAudio(PrintAll(es), rate) == Ok((head, packets))
    ensures IsOggOpus(Print(FilePlans(head, audio)), head, packets) <==> OggPages.Segments(head) <= 255
  {
    WalkIsVisit(es);
    FileReadsBack(head, audio, packets);
  }
}
