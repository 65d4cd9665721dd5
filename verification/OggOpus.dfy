/**
 * An Ogg Opus file packed page by page: the head, the tags, then the audio packets, each page
 * stamped with the samples finished by its end (section 4 of RFC 7845).
 */
module OggOpus {
  import opened Wrappers
  import opened Bytes
  import opened Lists
  import opened OggCrc
  import opened OggPages

  const OPUS_HEAD: seq<Byte> := [0x4f, 0x70, 0x75, 0x73, 0x48, 0x65, 0x61, 0x64]
  const OPUS_TAGS: seq<Byte> := [0x4f, 0x70, 0x75, 0x73, 0x54, 0x61, 0x67, 0x73]
  const DESKFOLK: seq<Byte> := [0x64, 0x65, 0x73, 0x6b, 0x66, 0x6f, 0x6c, 0x6b]

  function Tags(): seq<Byte> {
    OPUS_TAGS + LittleEndian(8, 4) + DESKFOLK + [0, 0, 0, 0]
  }

  /** The comment header of section 5.2 of RFC 7845: its name, a vendor string behind its length, and no comments. */
  lemma TagsAreComments()
    ensures var tags := Tags();
            && |tags| == 24 && tags[..8] == [0x4f, 0x70, 0x75, 0x73, 0x54, 0x61, 0x67, 0x73]
            && FromLittleEndian(tags[8..12]) == |tags| - 16 && tags[12..20] == [0x64, 0x65, 0x73, 0x6b, 0x66, 0x6f, 0x6c, 0x6b]
            && tags[20..] == [0, 0, 0, 0]
  {
    var tags := Tags();
    LittleEndianRoundTrip(8, 4);
    assert Pow256(4) == 256 * Pow256(3) && Pow256(3) >= 1;
    assert tags[8..12] == LittleEndian(8, 4);
    assert tags[12..20] == DESKFOLK && tags[20..] == [0, 0, 0, 0] && tags[..8] == OPUS_TAGS;
  }

  // ---- Samples ----

  function Frames(packet: Packet): nat
    requires packet != []
  {
    var code := packet[0] % 4;
    if code == 0 then 1 else if code < 3 then 2 else (if |packet| > 1 then packet[1] else 0) % 64
  }

  /** The frame size in hundredths of a millisecond, as the source's tables have it. */
  function FrameSize(config: nat): nat {
    if config < 12 then [100, 200, 400, 600][config % 4] else if config < 16 then [100, 200][config % 2] else [25, 50, 100, 200][config % 4]
  }

  /** `opusPacketSamples`. */
  function PacketSamples(packet: Packet): nat {
    if packet == [] then 0 else Frames(packet) * FrameSize(packet[0] / 8) * 48 / 10
  }

  /** The table of section 3.1 of RFC 6716: what a frame of each configuration lasts, in 48 kHz samples. */
  const FRAME_SAMPLES: seq<nat> := [
    480, 960, 1920, 2880, 480, 960, 1920, 2880, 480, 960, 1920, 2880,
    480, 960, 480, 960,
    120, 240, 480, 960, 120, 240, 480, 960, 120, 240, 480, 960, 120, 240, 480, 960]

  lemma FrameSizeAsSamples(config: nat)
    requires config < 32
    ensures |FRAME_SAMPLES| == 32 && FrameSize(config) * 48 == 10 * FRAME_SAMPLES[config]
  {
  }

  lemma ScaleBack(n: nat, size: nat, samples: nat)
    requires size * 48 == 10 * samples
    ensures n * size * 48 / 10 == n * samples
  {
    assert n * size * 48 == n * (size * 48) == 10 * (n * samples);
  }

  /** Every packet's samples are its frames times the frame size its configuration names. */
  lemma SamplesByConfiguration(packet: Packet)
    requires packet != []
    ensures packet[0] / 8 < |FRAME_SAMPLES| && PacketSamples(packet) == Frames(packet) * FRAME_SAMPLES[packet[0] / 8]
  {
    var config := packet[0] / 8;
    FrameSizeAsSamples(config);
    ScaleBack(Frames(packet), FrameSize(config), FRAME_SAMPLES[config]);
  }

  /** How many frames a packet says it has (section 3.2 of RFC 6716): one, two, or the number in its second byte. */
  datatype FrameCount = One | TwoEqual | TwoUnlike | Counted(variable: bool, padded: bool, count: nat)

  /** A packet's bytes: configuration, channels and code in the first, the count, when it is written, in the second. */
  function Written(config: nat, stereo: bool, frames: FrameCount, data: seq<Byte>): Packet
    requires config < 32 && (frames.Counted? ==> frames.count < 64)
  {
    var toc := 8 * config + (if stereo then 4 else 0);
    match frames
    case One => [toc] + data
    case TwoEqual => [toc + 1] + data
    case TwoUnlike => [toc + 2] + data
    case Counted(variable, padded, count) => [toc + 3, (if variable then 128 else 0) + (if padded then 64 else 0) + count] + data
  }

  function CountOf(frames: FrameCount): nat {
    match frames case One => 1 case Counted(_, _, count) => count case _ => 2
  }

  lemma WrittenReads(config: nat, stereo: bool, frames: FrameCount, data: seq<Byte>)
    requires config < 32 && (frames.Counted? ==> frames.count < 64)
    ensures var packet := Written(config, stereo, frames, data); packet[0] / 8 == config && Frames(packet) == CountOf(frames)
  {
  }

  /** A packet lasts its frames, however its configuration, channels and count are written into it. */
  lemma PacketLasts(config: nat, stereo: bool, frames: FrameCount, data: seq<Byte>)
    requires config < 32 && (frames.Counted? ==> frames.count < 64)
    ensures config < |FRAME_SAMPLES| && PacketSamples(Written(config, stereo, frames, data)) == CountOf(frames) * FRAME_SAMPLES[config]
  {
    hide Frames, PacketSamples, CountOf;
    WrittenReads(config, stereo, frames, data);
    SamplesByConfiguration(Written(config, stereo, frames, data));
  }

  function Samples(packets: seq<Packet>): nat {
    if packets == [] then 0 else Samples(packets[..|packets| - 1]) + PacketSamples(packets[|packets| - 1])
  }

  // ---- Pages to write ----

  datatype Plan = Plan(packets: seq<Packet>, granule: nat, flags: Byte)

  function PageOf(plan: Plan, sequence: nat): seq<Byte> {
    Page(plan.packets, plan.granule, sequence, plan.flags)
  }

  /** The pages, numbered in order. */
  function PagesFor(plans: seq<Plan>): seq<seq<Byte>> {
    seq(|plans|, k requires 0 <= k < |plans| => PageOf(plans[k], k))
  }

  function PacketLists(plans: seq<Plan>): seq<seq<Packet>> {
    seq(|plans|, k requires 0 <= k < |plans| => plans[k].packets)
  }

  /** All packets of the pages, in order. */
  function Flat(plans: seq<Plan>): seq<Packet> {
    Joined(PacketLists(plans))
  }

  /** The file's bytes. */
  function Print(plans: seq<Plan>): seq<Byte> {
    Joined(PagesFor(plans))
  }

  /**
   * An audio page: not empty, not over 255 segments, closed only because the next packet did not
   * fit, and stamped with the samples of all packets up to its end.
   */
  ghost predicate PackedPage(plans: seq<Plan>, k: nat)
    requires k < |plans|
  {
    && plans[k].packets != [] && SegmentsOf(plans[k].packets) <= 255
    && plans[k].granule == Samples(Flat(plans[..k + 1]))
    && (k + 1 < |plans| && plans[k + 1].packets != [] ==> SegmentsOf(plans[k].packets) + Segments(plans[k + 1].packets[0]) > 255)
  }

  ghost predicate Packing(plans: seq<Plan>) {
    forall k :: 0 <= k < |plans| ==> PackedPage(plans, k)
  }

  /** Only the last page ends the stream. */
  ghost predicate LastEnds(plans: seq<Plan>) {
    forall k :: 0 <= k < |plans| ==> plans[k].flags == (if k == |plans| - 1 then END else 0)
  }

  ghost predicate Packed(plans: seq<Plan>, packets: seq<Packet>) {
    Packing(plans) && LastEnds(plans) && Flat(plans) == packets
  }

  ghost function FilePlans(head: Packet, audio: seq<Plan>): seq<Plan> {
    [Plan([head], 0, BEGIN), Plan([Tags()], 0, 0)] + audio
  }

  // ---- What a reader gets back ----

  /** What a reader of Ogg Opus is promised of the file's bytes. */
  ghost predicate IsOggOpus(file: seq<Byte>, head: Packet, packets: seq<Packet>) {
    ReadPages(file).Some? && ArePagesOf(ReadPages(file).value, head, packets)
  }

  ghost predicate ArePagesOf(pages: seq<PageRecord>, head: Packet, packets: seq<Packet>) {
    && |pages| >= 2
    && Conforms(pages)
    && PacketsOf(pages, None) == Some([head, Tags()] + packets)
    && PacketsOf(pages[..1], None) == Some([head]) && PacketsOf(pages[1..2], None) == Some([Tags()])
    && pages[0].granule == 0 && pages[1].granule == 0
    && (forall k :: 2 <= k < |pages| ==> GranuleHolds(pages, k))
  }

  /** The page's granule is the samples of the audio packets finished by its end, as a 64-bit word. */
  ghost predicate GranuleHolds(pages: seq<PageRecord>, k: nat)
    requires 2 <= k < |pages|
  {
    var finished := PacketsOf(pages[2..k + 1], None);
    finished.Some? && pages[k].granule == Samples(finished.value) % Pow256(8)
  }

  ghost function Records(plans: seq<Plan>, from: nat): seq<PageRecord> {
    seq(|plans|, k requires 0 <= k < |plans| => RecordOf(plans[k].packets, plans[k].granule, from + k, plans[k].flags))
  }

  lemma {:induction false} JoinedFront<T>(pages: seq<seq<T>>)
    requires pages != []
    ensures Joined(pages) == pages[0] + Joined(pages[1..])
  {
    JoinedBack(pages);
    if |pages| == 1 {
      assert pages[..0] == [] && pages[1..] == [];
    } else {
      var front, last := pages[..|pages| - 1], pages[|pages| - 1];
      JoinedFront(front);
      JoinedBack(pages[1..]);
      hide Joined;
      assert pages[1..][..|pages| - 2] == front[1..];
      assert pages[0] + Joined(front[1..]) + last == pages[0] + (Joined(front[1..]) + last);
    }
  }

  lemma JoinedBack<T>(pages: seq<seq<T>>)
    requires pages != []
    ensures Joined(pages) == Joined(pages[..|pages| - 1]) + pages[|pages| - 1]
  {
  }

  /** The bytes read as this record, whatever follows them. */
  ghost predicate ReadsAs(page: seq<Byte>, record: PageRecord) {
    page != [] && forall rest :: ReadPage(page + rest) == Some((record, rest))
  }

  lemma ReadFirst(page: seq<Byte>, record: PageRecord, rest: seq<Byte>)
    requires ReadsAs(page, record) && ReadPages(rest).Some?
    ensures ReadPages(page + rest) == Some([record] + ReadPages(rest).value)
  {
    assert ReadPage(page + rest) == Some((record, rest));
  }

  lemma {:induction false} JoinedReadsBack(pages: seq<seq<Byte>>, records: seq<PageRecord>)
    requires |pages| == |records| && forall k :: 0 <= k < |pages| ==> ReadsAs(pages[k], records[k])
    ensures ReadPages(Joined(pages)) == Some(records)
    decreases |pages|
  {
    if pages != [] {
      JoinedFront(pages);
      JoinedReadsBack(pages[1..], records[1..]);
      ReadFirst(pages[0], records[0], Joined(pages[1..]));
      assert records == [records[0]] + records[1..];
    }
  }

  lemma PlanReadsAs(plan: Plan, sequence: nat)
    requires SegmentsOf(plan.packets) <= 255
    ensures ReadsAs(PageOf(plan, sequence), RecordOf(plan.packets, plan.granule, sequence, plan.flags))
  {
    forall rest
      ensures ReadPage(PageOf(plan, sequence) + rest) == Some((RecordOf(plan.packets, plan.granule, sequence, plan.flags), rest))
    {
      FitsReadsBack(plan.packets, plan.granule, sequence, plan.flags, rest);
    }
  }

  lemma PagesReadBack(plans: seq<Plan>)
    requires forall k :: 0 <= k < |plans| ==> SegmentsOf(plans[k].packets) <= 255
    ensures ReadPages(Print(plans)) == Some(Records(plans, 0))
  {
    forall k | 0 <= k < |plans|
      ensures ReadsAs(PagesFor(plans)[k], Records(plans, 0)[k])
    {
      PlanReadsAs(plans[k], k);
    }
    JoinedReadsBack(PagesFor(plans), Records(plans, 0));
  }

  lemma FlatFront(plans: seq<Plan>)
    requires plans != []
    ensures Flat(plans) == plans[0].packets + Flat(plans[1..])
  {
    JoinedFront(PacketLists(plans));
    assert PacketLists(plans)[1..] == PacketLists(plans[1..]);
  }

  lemma {:induction false} PacketsReadBack(plans: seq<Plan>, from: nat)
    requires forall k :: 0 <= k < |plans| ==> plans[k].flags % 2 == 0
    ensures PacketsOf(Records(plans, from), None) == Some(Flat(plans))
    decreases |plans|
  {
    hide Lacing, Body, Unlace, SegmentsOf;
    if plans != [] {
      PageUnlaces(plans[0].packets);
      PacketsReadBack(plans[1..], from + 1);
      FlatFront(plans);
      assert Records(plans, from)[1..] == Records(plans[1..], from + 1);
    }
  }

  lemma OnePacket(packet: Packet)
    ensures SegmentsOf([packet]) == Segments(packet)
  {
    assert [packet][..0] == [];
    assert SegmentsOf([]) == 0;
  }

  lemma FileConforms(head: Packet, audio: seq<Plan>)
    requires audio != [] && Packing(audio) && LastEnds(audio) && Segments(head) <= 255
    ensures Conforms(Records(FilePlans(head, audio), 0))
    ensures forall k :: 0 <= k < |FilePlans(head, audio)| ==> SegmentsOf(FilePlans(head, audio)[k].packets) <= 255
  {
    hide Lacing, Body, SegmentsOf, Segments, Packing, Tags;
    PlansFit(head, audio);
    assert (BEGIN / BEGIN) % 2 == 1 && (BEGIN / END) % 2 == 0 && (END / BEGIN) % 2 == 0 && (END / END) % 2 == 1;
  }

  /** Every page's packets fit it. */
  lemma PlansFit(head: Packet, audio: seq<Plan>)
    requires Packing(audio) && Segments(head) <= 255
    ensures forall k :: 0 <= k < |FilePlans(head, audio)| ==>
              SegmentsOf(FilePlans(head, audio)[k].packets) <= 255 && |Lacing(FilePlans(head, audio)[k].packets)| <= 255
  {
    var plans := FilePlans(head, audio);
    OnePacket(head);
    OnePacket(Tags());
    hide Lacing, Body;
    forall k | 0 <= k < |plans|
      ensures SegmentsOf(plans[k].packets) <= 255 && |Lacing(plans[k].packets)| <= 255
    {
      LacingSum(plans[k].packets);
      if k >= 2 { assert PackedPage(audio, k - 2); }
    }
  }

  lemma AudioGranule(head: Packet, audio: seq<Plan>, k: nat)
    requires Packing(audio) && LastEnds(audio) && 2 <= k < |audio| + 2
    ensures GranuleHolds(Records(FilePlans(head, audio), 0), k)
  {
    hide PacketsOf, Samples, Flat, RecordOf;
    var pages := Records(FilePlans(head, audio), 0);
    var some := audio[..k - 1];
    assert pages[2..k + 1] == Records(some, 2);
    PacketsReadBack(some, 2);
    assert PackedPage(audio, k - 2) && audio[..k - 2 + 1] == some;
    RecordGranule(audio[k - 2], k);
  }

  lemma RecordGranule(plan: Plan, sequence: nat)
    ensures RecordOf(plan.packets, plan.granule, sequence, plan.flags).granule == plan.granule % Pow256(8)
  {
  }

  lemma FileFlat(head: Packet, audio: seq<Plan>)
    ensures Flat(FilePlans(head, audio)) == [head, Tags()] + Flat(audio)
    ensures Flat([Plan([head], 0, BEGIN)]) == [head] && Flat([Plan([Tags()], 0, 0)]) == [Tags()]
  {
    var plans := FilePlans(head, audio);
    FlatFront(plans);
    FlatFront(plans[1..]);
    assert plans[1..][1..] == audio;
    assert [head] + ([Tags()] + Flat(audio)) == [head, Tags()] + Flat(audio);
    FlatFront([Plan([head], 0, BEGIN)]);
    FlatFront([Plan([Tags()], 0, 0)]);
  }

  lemma FilePackets(head: Packet, audio: seq<Plan>)
    requires LastEnds(audio)
    ensures PacketsOf(Records(FilePlans(head, audio), 0), None) == Some([head, Tags()] + Flat(audio))
  {
    FileFlat(head, audio);
    PacketsReadBack(FilePlans(head, audio), 0);
  }

  lemma FirstTwoPages(head: Packet, audio: seq<Plan>)
    ensures var pages := Records(FilePlans(head, audio), 0);
            && PacketsOf(pages[..1], None) == Some([head]) && PacketsOf(pages[1..2], None) == Some([Tags()])
            && pages[0].granule == 0 && pages[1].granule == 0
  {
    var plans := FilePlans(head, audio);
    var pages := Records(plans, 0);
    FileFlat(head, audio);
    PacketsReadBack([Plan([head], 0, BEGIN)], 0);
    PacketsReadBack([Plan([Tags()], 0, 0)], 1);
    assert pages[..1] == Records([Plan([head], 0, BEGIN)], 0);
    assert pages[1..2] == Records([Plan([Tags()], 0, 0)], 1);
  }

  lemma PagesAreRight(head: Packet, audio: seq<Plan>, packets: seq<Packet>)
    requires audio != [] && Packed(audio, packets) && Segments(head) <= 255
    ensures ArePagesOf(Records(FilePlans(head, audio), 0), head, packets)
  {
    FileConforms(head, audio);
    FilePackets(head, audio);
    FirstTwoPages(head, audio);
    forall k | 2 <= k < |FilePlans(head, audio)|
      ensures GranuleHolds(Records(FilePlans(head, audio), 0), k)
    {
      AudioGranule(head, audio, k);
    }
  }

  /**
   * Read by RFC 3533, the file gives back the head, the tags and every audio packet in order, on
   * pages that number, begin, end and stamp the stream as they should: exactly when the head fits
   * one page, which the remuxer does not check.
   */
  lemma FileReadsBack(head: Packet, audio: seq<Plan>, packets: seq<Packet>)
    requires audio != [] && Packed(audio, packets)
    ensures IsOggOpus(Print(FilePlans(head, audio)), head, packets) <==> Segments(head) <= 255
  {
    if Segments(head) <= 255 {
      FileConforms(head, audio);
      PagesReadBack(FilePlans(head, audio));
      PagesAreRight(head, audio, packets);
    } else {
      HeadTooLong(head, audio, packets);
    }
  }

  /** A head of more than 255 segments: its page is read short, and no packet ends on what is read. */
  lemma HeadTooLong(head: Packet, audio: seq<Plan>, packets: seq<Packet>)
    requires Segments(head) > 255
    ensures !IsOggOpus(Print(FilePlans(head, audio)), head, packets)
  {
    hide Page, Records, Conforms, GranuleHolds, Samples;
    var plans := FilePlans(head, audio);
    var page, rest := PageOf(plans[0], 0), Joined(PagesFor(plans)[1..]);
    JoinedFront(PagesFor(plans));
    LongPage(page, head);
    assert forall i :: 27 <= i < 27 + page[26] as nat ==> (page + rest)[i] == page[i];
    FirstPageEndsNothing(page + rest);
    FirstRead(page + rest);
  }

  lemma LongPage(page: seq<Byte>, head: Packet)
    requires page == Page([head], 0, 0, BEGIN) && Segments(head) > 255
    ensures |page| > 27 + 255 && page[5] == BEGIN && forall i :: 27 <= i < 27 + page[26] as nat ==> page[i] == 255
  {
    OnePacket(head);
    LacingSum([head]);
    var lacing := Lacing([head]);
    assert [head][..0] == [];
    assert lacing == PacketLacing(|head|);
    var crc := Crc(PageWith([head], 0, 0, BEGIN, 0));
    Behind(page, Header(|lacing|, 0, 0, BEGIN, crc), lacing, Body([head]));
    HeaderFields(page, |lacing|, 0, 0, BEGIN, crc, lacing + Body([head]));
    forall i | 27 <= i < 27 + page[26] as nat
      ensures page[i] == 255
    {
      LacingIsFull(|head|, i - 27);
      assert page[i] == page[27..][i - 27];
    }
  }

  /** The first page read is that at the front. */
  lemma FirstRead(b: seq<Byte>)
    ensures b != [] && ReadPages(b).Some? ==> ReadPage(b).Some? && ReadPages(b).value[..1] == [ReadPage(b).value.0]
  {
  }

  /** No packet ends on a page whose lacing values are all 255. */
  lemma FirstPageEndsNothing(b: seq<Byte>)
    requires |b| >= 27 + 255 && b[5] == BEGIN && forall i :: 27 <= i < 27 + b[26] as nat ==> b[i] == 255
    ensures ReadPage(b).Some? ==> var first := PacketsOf([ReadPage(b).value.0], None); first.None? || first == Some([])
  {
    if ReadPage(b).Some? {
      var first := ReadPage(b).value.0;
      assert first.flags == BEGIN;
      assert forall i :: 0 <= i < |first.lacing| ==> first.lacing[i] == b[27 + i];
      EndsNothing(first);
    }
  }

  lemma EndsNothing(page: PageRecord)
    requires page.flags == BEGIN && forall i :: 0 <= i < |page.lacing| ==> page.lacing[i] == 255
    ensures PacketsOf([page], None).None? || PacketsOf([page], None) == Some([])
  {
    if Sum(page.lacing) == |page.body| {
      NothingEnds(page.lacing, page.body, None);
      var left := Unlace(page.lacing, page.body, None).1;
      var pages, none: seq<Packet> := [page], [];
      assert pages[0] == page && pages[1..] == [] && none + none == none;
      assert PacketsOf(pages[1..], left) == if left.None? then Some(none) else None;
      assert PacketsOf(pages, None) == PacketsOf(pages[1..], left);
    }
  }

  // ---- Packing, as the remuxer does it ----

  datatype RemuxError = NotWebm | CutShort | UnknownSize | Laced | NoOpusTrack | TooManyChannels | NoAudio | PacketTooLarge

  lemma FlatAppend(plans: seq<Plan>, plan: Plan)
    ensures Flat(plans + [plan]) == Flat(plans) + plan.packets
  {
    assert PacketLists(plans + [plan])[..|plans|] == PacketLists(plans);
  }

  lemma PackingAppend(plans: seq<Plan>, plan: Plan)
    requires Packing(plans)
    requires plan.packets != [] && SegmentsOf(plan.packets) <= 255 && plan.granule == Samples(Flat(plans) + plan.packets)
    requires plans != [] ==> SegmentsOf(plans[|plans| - 1].packets) + Segments(plan.packets[0]) > 255
    ensures Packing(plans + [plan])
  {
    hide SegmentsOf, Segments, Samples, Flat;
    var all := plans + [plan];
    forall k | 0 <= k < |all|
      ensures PackedPage(all, k)
    {
      if k < |plans| {
        EarlierPage(plans, plan, k);
      } else {
        LastPage(plans, plan);
      }
    }
  }

  lemma EarlierPage(plans: seq<Plan>, plan: Plan, k: nat)
    requires k < |plans| && PackedPage(plans, k)
    requires plan.packets != [] && (k == |plans| - 1 ==> SegmentsOf(plans[k].packets) + Segments(plan.packets[0]) > 255)
    ensures PackedPage(plans + [plan], k)
  {
    assert (plans + [plan])[..k + 1] == plans[..k + 1];
  }

  lemma LastPage(plans: seq<Plan>, plan: Plan)
    requires plan.packets != [] && SegmentsOf(plan.packets) <= 255 && plan.granule == Samples(Flat(plans) + plan.packets)
    ensures PackedPage(plans + [plan], |plans|)
  {
    FlatAppend(plans, plan);
    assert (plans + [plan])[..|plans| + 1] == plans + [plan];
  }

  ghost predicate NoneEnds(plans: seq<Plan>) {
    forall k :: 0 <= k < |plans| ==> plans[k].flags == 0
  }

  /** The page being filled: what the closed pages and it hold is what was taken so far. */
  ghost predicate Filling(plans: seq<Plan>, page: seq<Packet>, used: nat, granule: nat, taken: seq<Packet>) {
    && Packing(plans) && NoneEnds(plans)
    && Flat(plans) + page == taken
    && used == SegmentsOf(page) <= 255
    && granule == Samples(taken)
    && (page == [] ==> taken == [] && plans == [])
    && (plans != [] ==> page != [] && SegmentsOf(plans[|plans| - 1].packets) + Segments(page[0]) > 255)
  }

  /** Room for the next packet: the page is open, or was just closed for want of it. */
  ghost predicate Room(plans: seq<Plan>, page: seq<Packet>, used: nat, granule: nat, taken: seq<Packet>, packet: Packet) {
    && Packing(plans) && NoneEnds(plans)
    && Flat(plans) + page == taken
    && used == SegmentsOf(page) && used + Segments(packet) <= 255
    && granule == Samples(taken)
    && (plans != [] ==> SegmentsOf(plans[|plans| - 1].packets) + Segments(if page == [] then packet else page[0]) > 255)
  }

  lemma StayOpen(plans: seq<Plan>, page: seq<Packet>, used: nat, granule: nat, taken: seq<Packet>, packet: Packet)
    requires Filling(plans, page, used, granule, taken) && used + Segments(packet) <= 255
    ensures Room(plans, page, used, granule, taken, packet)
  {
  }

  lemma CloseKeeps(plans: seq<Plan>, page: seq<Packet>, used: nat, granule: nat, taken: seq<Packet>, packet: Packet)
    requires Filling(plans, page, used, granule, taken) && used + Segments(packet) > 255 >= Segments(packet)
    ensures Room(plans + [Plan(page, granule, 0)], [], 0, granule, taken, packet)
  {
    PackingAppend(plans, Plan(page, granule, 0));
    FlatAppend(plans, Plan(page, granule, 0));
    assert taken + [] == taken;
  }

  lemma TakeKeeps(plans: seq<Plan>, page: seq<Packet>, used: nat, granule: nat, taken: seq<Packet>, packet: Packet)
    requires Room(plans, page, used, granule, taken, packet)
    ensures Filling(plans, page + [packet], used + Segments(packet), granule + PacketSamples(packet), taken + [packet])
  {
    assert (page + [packet])[..|page|] == page;
    assert (taken + [packet])[..|taken|] == taken;
    assert Flat(plans) + (page + [packet]) == taken + [packet];
  }

  lemma EndKeeps(plans: seq<Plan>, page: seq<Packet>, used: nat, granule: nat, packets: seq<Packet>)
    requires Filling(plans, page, used, granule, packets) && page != []
    ensures Packed(plans + [Plan(page, granule, END)], packets)
  {
    PackingAppend(plans, Plan(page, granule, END));
    FlatAppend(plans, Plan(page, granule, END));
  }

  lemma OneMorePage(head: Packet, audio: seq<Plan>, plan: Plan, sequence: nat)
    requires sequence == |PagesFor(FilePlans(head, audio))|
    ensures PagesFor(FilePlans(head, audio)) + [PageOf(plan, sequence)] == PagesFor(FilePlans(head, audio + [plan]))
  {
    hide PageOf, PagesFor;
    assert FilePlans(head, audio + [plan]) == FilePlans(head, audio) + [plan];
    PagesGrow(FilePlans(head, audio), plan);
  }

  lemma PagesGrow(plans: seq<Plan>, plan: Plan)
    ensures |PagesFor(plans)| == |plans| && PagesFor(plans) + [PageOf(plan, |plans|)] == PagesFor(plans + [plan])
  {
    hide PageOf;
    var all := plans + [plan];
    assert forall k :: 0 <= k < |plans| ==> all[k] == plans[k];
  }

  lemma PrefixGrows(packets: seq<Packet>, k: nat)
    requires k < |packets|
    ensures packets[..k + 1] == packets[..k] + [packets[k]]
    ensures k == |packets| - 1 ==> packets[..k + 1] == packets
  {
  }

  ghost predicate AllFit(packets: seq<Packet>, k: nat)
    requires k <= |packets|
  {
    forall i :: 0 <= i < k ==> Segments(packets[i]) <= 255
  }

  /** Where the loop stands: the pages written, and the page being filled unless the packets are through. */
  ghost predicate Packing1(head: Packet, packets: seq<Packet>, k: nat, pages: seq<seq<Byte>>, audio: seq<Plan>, page: seq<Packet>, used: nat, granule: nat) {
    && k <= |packets|
    && AllFit(packets, k)
    && Filling(audio, page, used, granule, packets[..k])
    && pages == PagesFor(FilePlans(head, audio))
  }

  /** A packet taken: onto a new page when it does not fit the one being filled. */
  method TakePacket(
    head: Packet, packets: seq<Packet>, k: nat, table: seq<Word>, pages: seq<seq<Byte>>, page: seq<Packet>, used: nat, granule: nat, ghost audio: seq<Plan>)
    returns (pages': seq<seq<Byte>>, page': seq<Packet>, used': nat, granule': nat, ghost audio': seq<Plan>)
    requires k < |packets| && Segments(packets[k]) <= 255
    requires |table| == 256 && forall i :: 0 <= i < 256 ==> table[i] == Steps(i * 0x100_0000, 8)
    requires Packing1(head, packets, k, pages, audio, page, used, granule)
    ensures Packing1(head, packets, k + 1, pages', audio', page', used', granule') && page' != []
  {
    hide Filling, Room, Page, Packing, Segments, PacketSamples;
    pages', page', used', granule', audio' := pages, page, used, granule, audio;
    var packet := packets[k];
    if used + Segments(packet) > 255 {
      var done := OggPage(page, granule, |pages|, 0, table);
      CloseKeeps(audio, page, used, granule, packets[..k], packet);
      OneMorePage(head, audio, Plan(page, granule, 0), |pages|);
      audio' := audio + [Plan(page, granule, 0)];
      pages' := pages + [done];
      page', used' := [], 0;
    } else {
      StayOpen(audio, page, used, granule, packets[..k], packet);
    }
    TakeKeeps(audio', page', used', granule, packets[..k], packet);
    PrefixGrows(packets, k);
    page' := page' + [packet];
    used' := used' + Segments(packet);
    granule' := granule + PacketSamples(packet);
  }

  lemma PageTaken(head: Packet, packets: seq<Packet>, pages: seq<seq<Byte>>, audio: seq<Plan>, page: seq<Packet>, used: nat, granule: nat)
    requires Packing1(head, packets, |packets|, pages, audio, page, used, granule) && page != []
    ensures Packed(audio + [Plan(page, granule, END)], packets)
    ensures pages + [Page(page, granule, |pages|, END)] == PagesFor(FilePlans(head, audio + [Plan(page, granule, END)]))
  {
    assert packets[..|packets|] == packets;
    EndKeeps(audio, page, used, granule, packets);
    OneMorePage(head, audio, Plan(page, granule, END), |pages|);
  }

  /** The packets one by one onto pages, a new page whenever the next one does not fit. */
  method PackPages(head: Packet, packets: seq<Packet>, table: seq<Word>) returns (pages: seq<seq<Byte>>, fits: bool, ghost audio: seq<Plan>)
    requires packets != []
    requires |table| == 256 && forall i :: 0 <= i < 256 ==> table[i] == Steps(i * 0x100_0000, 8)
    ensures fits <==> AllFit(packets, |packets|)
    ensures fits ==> audio != [] && Packed(audio, packets) && pages == PagesFor(FilePlans(head, audio))
  {
    var first := OggPage([head], 0, 0, BEGIN, table);
    var second := OggPage([Tags()], 0, 1, 0, table);
    pages := [first, second];
    var granule: nat, used: nat := 0, 0;
    var page: seq<Packet> := [];
    audio := [];
    assert Packing1(head, packets, 0, pages, audio, page, used, granule);
    for index := 0 to |packets|
      invariant AllFit(packets, index)
      invariant index < |packets| ==> Packing1(head, packets, index, pages, audio, page, used, granule)
      invariant index == |packets| ==> audio != [] && Packed(audio, packets) && pages == PagesFor(FilePlans(head, audio))
    {
      hide Packing1, Page, Packed, PagesFor, Segments;
      if Segments(packets[index]) > 255 {
        return pages, false, audio;
      }
      pages, page, used, granule, audio := TakePacket(head, packets, index, table, pages, page, used, granule, audio);
      if index == |packets| - 1 {
        var done := OggPage(page, granule, |pages|, END, table);
        PageTaken(head, packets, pages, audio, page, used, granule);
        audio := audio + [Plan(page, granule, END)];
        pages := pages + [done];
      }
    }
    fits := true;
  }

  lemma PrintedIs(plans: seq<Plan>)
    ensures Print(plans) == Joined(PagesFor(plans))
  {
  }

  /** The second half of `webmOpusToOgg`: pages for the head, the tags and the packets, joined. */
  method PackFile(head: Packet, packets: seq<Packet>) returns (r: Result<seq<Byte>, RemuxError>, ghost audio: seq<Plan>)
    requires packets != []
    ensures r.Ok? <==> AllFit(packets, |packets|)
    ensures r.Err? ==> r.error == PacketTooLarge
    ensures r.Ok? ==> audio != [] && Packed(audio, packets) && r.value == Print(FilePlans(head, audio))
    ensures r.Ok? ==> (IsOggOpus(r.value, head, packets) <==> Segments(head) <= 255)
  {
    hide IsOggOpus, Packed, Print, AllFit;
    var table := BuildTable();
    var pages, fits;
    pages, fits, audio := PackPages(head, packets, table);
    if !fits { return Err(PacketTooLarge), audio; }
    var out := JoinPages(pages);
    assert out == Print(FilePlans(head, audio)) by { PrintedIs(FilePlans(head, audio)); }
    FileReadsBack(head, audio, packets);
    r := Ok(out);
  }

  method JoinPages(pages: seq<seq<Byte>>) returns (out: seq<Byte>)
    ensures out == Joined(pages)
  {
    out := [];
    for k := 0 to |pages|
      invariant out == Joined(pages[..k])
    {
      assert pages[..k + 1][..k] == pages[..k];
      out := out + pages[k];
    }
    assert pages[..|pages|] == pages;
  }
}
