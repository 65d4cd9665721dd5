/**
 * Ogg pages as the remuxer writes them, and a reader of Ogg streams written from sections 4 to 6 of
 * RFC 3533, which undoes them.
 *
 * The reader knows nothing of the writer: it checks the capture pattern, the version and the
 * checksum, cuts a page by its lacing values, takes packets apart by them, also across pages, and
 * holds a stream to one serial number, its page numbers, and its begin and end flags. The writer
 * fills a page in place, field by field, and its checksum last.
 */
module OggPages {
  import opened Wrappers
  import opened Bytes
  import opened OggCrc

  const SERIAL: nat := 0x5242_4f54
  const CAPTURE: seq<Byte> := [0x4f, 0x67, 0x67, 0x53]
  const CONTINUED: nat := 1
  const BEGIN: nat := 2
  const END: nat := 4

  type Packet = seq<Byte>

  // ---- Writing ----

  function PacketLacing(length: nat): seq<Byte> {
    if length < 255 then [length] else [255] + PacketLacing(length - 255)
  }

  function Lacing(packets: seq<Packet>): seq<Byte> {
    if packets == [] then [] else Lacing(packets[..|packets| - 1]) + PacketLacing(|packets[|packets| - 1]|)
  }

  function Body(packets: seq<Packet>): seq<Byte> {
    if packets == [] then [] else Body(packets[..|packets| - 1]) + packets[|packets| - 1]
  }

  function Segments(packet: Packet): nat {
    |packet| / 255 + 1
  }

  function SegmentsOf(packets: seq<Packet>): nat {
    if packets == [] then 0 else SegmentsOf(packets[..|packets| - 1]) + Segments(packets[|packets| - 1])
  }

  function Header(count: nat, granule: nat, sequence: nat, flags: Byte, crc: nat): (r: seq<Byte>)
    ensures |r| == 27
  {
    CAPTURE + [0, flags] + LittleEndian(granule, 8) + LittleEndian(SERIAL, 4) + LittleEndian(sequence, 4)
    + LittleEndian(crc, 4) + [count % 256]
  }

  function PageWith(packets: seq<Packet>, granule: nat, sequence: nat, flags: Byte, crc: nat): seq<Byte> {
    Header(|Lacing(packets)|, granule, sequence, flags, crc) + Lacing(packets) + Body(packets)
  }

  function Page(packets: seq<Packet>, granule: nat, sequence: nat, flags: Byte): seq<Byte> {
    PageWith(packets, granule, sequence, flags, Crc(PageWith(packets, granule, sequence, flags, 0)))
  }

  method LacingValues(packets: seq<Packet>) returns (lacing: seq<Byte>)
    ensures lacing == Lacing(packets)
  {
    lacing := [];
    for k := 0 to |packets|
      invariant lacing == Lacing(packets[..k])
    {
      var left := |packets[k]|;
      ghost var before := lacing;
      while left >= 255
        invariant 0 <= left
        invariant lacing + PacketLacing(left) == before + PacketLacing(|packets[k]|)
      {
        lacing := lacing + [255];
        left := left - 255;
        assert lacing + PacketLacing(left) == lacing[..|lacing| - 1] + ([255] + PacketLacing(left));
      }
      lacing := lacing + [left];
      assert packets[..k + 1][..k] == packets[..k];
    }
    assert packets[..|packets|] == packets;
  }

  /** A buffer with bytes written over it. */
  function Over(s: seq<Byte>, at: nat, bytes: seq<Byte>): (r: seq<Byte>)
    requires at + |bytes| <= |s|
    ensures |r| == |s|
  {
    s[..at] + bytes + s[at + |bytes|..]
  }

  /** `page.set(bytes, at)`. */
  method Set(page: array<Byte>, at: nat, bytes: seq<Byte>)
    requires at + |bytes| <= page.Length
    modifies page
    ensures page[..] == Over(old(page[..]), at, bytes)
  {
    for i := 0 to |bytes|
      invariant page[..at + i] == old(page[..at]) + bytes[..i]
      invariant page[at + i..] == old(page[at + i..])
    {
      page[at + i] := bytes[i];
      assert page[..at + i + 1] == page[..at + i] + [bytes[i]];
      assert bytes[..i + 1] == bytes[..i] + [bytes[i]];
    }
    assert page[..] == page[..at + |bytes|] + page[at + |bytes|..];
  }

  /** Writing just behind what is already right. */
  lemma OverExtends(s: seq<Byte>, done: seq<Byte>, blank: seq<Byte>, bytes: seq<Byte>)
    requires |done| + |bytes| <= |s| == |blank| && s == done + blank[|done|..]
    ensures Over(s, |done|, bytes) == done + bytes + blank[|done| + |bytes|..]
  {
    assert s[|done| + |bytes|..] == blank[|done| + |bytes|..];
  }

  /** The next field, behind those already set. */
  method SetNext(page: array<Byte>, at: nat, bytes: seq<Byte>, ghost done: seq<Byte>, ghost blank: seq<Byte>)
    requires at == |done| && at + |bytes| <= page.Length == |blank| && page[..] == done + blank[at..]
    modifies page
    ensures page[..] == (done + bytes) + blank[at + |bytes|..]
  {
    OverExtends(page[..], done, blank, bytes);
    Set(page, at, bytes);
  }

  lemma CountField(s: seq<Byte>, fields: seq<Byte>, blank: seq<Byte>, count: Byte)
    requires |fields| == 22 && |blank| >= 27 && s == fields + blank[22..] && forall i :: 0 <= i < |blank| ==> blank[i] == 0
    ensures s[26 := count] == fields + LittleEndian(0, 4) + [count] + blank[27..]
  {
    ZeroField();
  }

  lemma FlagField(s: seq<Byte>, blank: seq<Byte>, flags: Byte)
    requires |blank| >= 27 && s == CAPTURE + blank[4..] && blank[4] == 0
    ensures s[5 := flags] == CAPTURE + [0, flags] + blank[6..]
  {
  }

  /** The header fields, the checksum still zero. */
  method SetHeader(page: array<Byte>, count: nat, granule: nat, sequence: nat, flags: Byte)
    requires page.Length >= 27 && forall i :: 0 <= i < page.Length ==> page[i] == 0
    modifies page
    ensures page[..] == Header(count, granule, sequence, flags, 0) + old(page[27..])
  {
    hide LittleEndian;
    ghost var blank := page[..];
    assert page[..] == [] + blank[0..];
    SetNext(page, 0, CAPTURE, [], blank);
    assert [] + CAPTURE == CAPTURE;
    FlagField(page[..], blank, flags);
    page[5] := flags;
    ghost var front := CAPTURE + [0, flags];
    SetNext(page, 6, LittleEndian(granule, 8), front, blank);
    ghost var upToGranule := front + LittleEndian(granule, 8);
    SetNext(page, 14, LittleEndian(SERIAL, 4), upToGranule, blank);
    ghost var upToSerial := upToGranule + LittleEndian(SERIAL, 4);
    SetNext(page, 18, LittleEndian(sequence, 4), upToSerial, blank);
    ghost var fields := upToSerial + LittleEndian(sequence, 4);
    CountField(page[..], fields, blank, count % 256);
    page[26] := count % 256;
  }

  /** Packets one after the other, from `from` on. */
  method SetBody(page: array<Byte>, from: nat, packets: seq<Packet>)
    requires page.Length == from + |Body(packets)|
    modifies page
    ensures page[..] == old(page[..from]) + Body(packets)
  {
    var at := from;
    for k := 0 to |packets|
      invariant at == from + |Body(packets[..k])| <= page.Length
      invariant page[..at] == old(page[..from]) + Body(packets[..k])
    {
      assert packets[..k + 1][..k] == packets[..k];
      BodyGrows(packets, k + 1);
      OverExtends(page[..], page[..at], page[..], packets[k]);
      Set(page, at, packets[k]);
      at := at + |packets[k]|;
    }
    assert packets[..|packets|] == packets;
    assert page[..] == page[..at];
  }

  /** `oggPage`: the header fields and the body set in place, then the checksum over the whole. */
  method OggPage(packets: seq<Packet>, granule: nat, sequence: nat, flags: Byte, table: seq<Word>) returns (bytes: seq<Byte>)
    requires |table| == 256 && forall i :: 0 <= i < 256 ==> table[i] == Steps(i * 0x100_0000, 8)
    ensures bytes == Page(packets, granule, sequence, flags)
  {
    var lacing := LacingValues(packets);
    var page := new Byte[27 + |lacing| + |Body(packets)|](_ => 0);
    SetHeader(page, |lacing|, granule, sequence, flags);
    ghost var header := Header(|lacing|, granule, sequence, flags, 0);
    OverExtends(page[..], header, page[..], lacing);
    Set(page, 27, lacing);
    assert page[..27 + |lacing|] == header + lacing;
    SetBody(page, 27 + |lacing|, packets);
    var crc := TableCrc(table, page[..]);
    ghost var zeroed := page[..];
    Set(page, 22, LittleEndian(crc, 4));
    bytes := page[..];
    CrcField(packets, granule, sequence, flags, crc, zeroed);
  }

  lemma {:induction false} BodyGrows(packets: seq<Packet>, k: nat)
    requires k <= |packets|
    ensures |Body(packets[..k])| <= |Body(packets)|
    decreases |packets| - k
  {
    if k < |packets| {
      assert packets[..k + 1][..k] == packets[..k];
      BodyGrows(packets, k + 1);
    } else {
      assert packets[..k] == packets;
    }
  }

  /** Only bytes 22 to 25 of a page depend on its checksum. */
  lemma CrcField(packets: seq<Packet>, granule: nat, sequence: nat, flags: Byte, crc: nat, zeroed: seq<Byte>)
    requires zeroed == PageWith(packets, granule, sequence, flags, 0)
    ensures PageWith(packets, granule, sequence, flags, crc) == zeroed[..22] + LittleEndian(crc, 4) + zeroed[26..]
  {
    var front := CAPTURE + [0, flags] + LittleEndian(granule, 8) + LittleEndian(SERIAL, 4) + LittleEndian(sequence, 4);
    var back := [|Lacing(packets)| % 256] + Lacing(packets) + Body(packets);
    assert zeroed == front + LittleEndian(0, 4) + back;
    assert PageWith(packets, granule, sequence, flags, crc) == front + LittleEndian(crc, 4) + back;
  }

  // ---- Reading ----

  datatype PageRecord = PageRecord(flags: Byte, granule: nat, serial: nat, sequence: nat, lacing: seq<Byte>, body: seq<Byte>)

  function Sum(values: seq<Byte>): nat {
    if values == [] then 0 else values[0] + Sum(values[1..])
  }

  /** Where the page at the front ends, by its lacing values. */
  function PageEnd(b: seq<Byte>): nat
    requires |b| >= 27 && |b| >= 27 + b[26] as nat
  {
    27 + b[26] + Sum(b[27..27 + b[26] as nat])
  }

  predicate Framed(b: seq<Byte>) {
    |b| >= 27 && b[..4] == CAPTURE && b[4] == 0 && |b| >= 27 + b[26] as nat && |b| >= PageEnd(b)
  }

  /** The checksum of a page, its checksum field read as zeros. */
  function Checksum(page: seq<Byte>): Word
    requires |page| >= 27
  {
    Crc(page[..22] + [0, 0, 0, 0] + page[26..])
  }

  function Fields(page: seq<Byte>): PageRecord
    requires |page| >= 27 && |page| >= 27 + page[26] as nat
  {
    PageRecord(
      page[5], FromLittleEndian(page[6..14]), FromLittleEndian(page[14..18]), FromLittleEndian(page[18..22]),
      page[27..][..page[26]], page[27..][page[26]..])
  }

  /** The page at the front of the bytes and what follows it, when there is a whole page that checks out. */
  function ReadPage(b: seq<Byte>): Option<(PageRecord, seq<Byte>)> {
    if !Framed(b) then None
    else
      var page := b[..PageEnd(b)];
      if FromLittleEndian(page[22..26]) != Checksum(page) then None else Some((Fields(page), b[PageEnd(b)..]))
  }

  function ReadPages(b: seq<Byte>): Option<seq<PageRecord>>
    decreases |b|
  {
    if b == [] then Some([])
    else
      match ReadPage(b)
      case None => None
      case Some((page, rest)) =>
        match ReadPages(rest)
        case None => None
        case Some(pages) => Some([page] + pages)
  }

  /**
   * The packets a page's lacing values end, and the packet it leaves open, if any: a value of 255
   * means that the packet goes on, also onto the next page.
   */
  function Unlace(lacing: seq<Byte>, body: seq<Byte>, open: Option<Packet>): (r: (seq<Packet>, Option<Packet>))
    requires Sum(lacing) == |body|
    decreases |lacing|
  {
    if lacing == [] then ([], open)
    else
      var n := lacing[0];
      var packet := open.GetOr([]) + body[..n];
      if n < 255 then
        var (more, left) := Unlace(lacing[1..], body[n..], None);
        ([packet] + more, left)
      else Unlace(lacing[1..], body[n..], Some(packet))
  }

  /** The packets of a stream; the continued flag must say whether a page goes on with an open packet. */
  function PacketsOf(pages: seq<PageRecord>, open: Option<Packet>): Option<seq<Packet>>
    decreases |pages|
  {
    if pages == [] then (if open.None? then Some([]) else None)
    else
      var page := pages[0];
      if Sum(page.lacing) != |page.body| || (page.flags % 2 == CONTINUED) != open.Some? then None
      else
        var (done, left) := Unlace(page.lacing, page.body, open);
        match PacketsOf(pages[1..], left)
        case None => None
        case Some(more) => Some(done + more)
  }

  /** One logical stream: one serial number, pages numbered from 0, begun once and ended once. */
  ghost predicate Conforms(pages: seq<PageRecord>) {
    forall i :: 0 <= i < |pages| ==>
      && pages[i].serial == SERIAL
      && pages[i].sequence == i % WORD
      && ((pages[i].flags / BEGIN) % 2 == 1 <==> i == 0)
      && ((pages[i].flags / END) % 2 == 1 <==> i == |pages| - 1)
      && |pages[i].lacing| <= 255
  }

  // ---- Reading what was written ----

  function RecordOf(packets: seq<Packet>, granule: nat, sequence: nat, flags: Byte): PageRecord {
    PageRecord(flags, granule % Pow256(8), SERIAL, sequence % WORD, Lacing(packets), Body(packets))
  }

  lemma {:induction false} SumConcat(a: seq<Byte>, b: seq<Byte>)
    ensures Sum(a + b) == Sum(a) + Sum(b)
  {
    if a == [] {
      assert a + b == b;
    } else {
      assert (a + b)[1..] == a[1..] + b;
      SumConcat(a[1..], b);
    }
  }

  lemma {:induction false} PacketLacingSum(length: nat)
    ensures Sum(PacketLacing(length)) == length && |PacketLacing(length)| == length / 255 + 1
  {
    if length >= 255 {
      PacketLacingSum(length - 255);
      assert PacketLacing(length)[1..] == PacketLacing(length - 255);
    }
  }

  /** The lacing values of a page add up to its body, and there are as many as its packets have segments. */
  lemma {:induction false} LacingSum(packets: seq<Packet>)
    ensures Sum(Lacing(packets)) == |Body(packets)| && |Lacing(packets)| == SegmentsOf(packets)
  {
    if packets != [] {
      var front, last := packets[..|packets| - 1], packets[|packets| - 1];
      LacingSum(front);
      PacketLacingSum(|last|);
      SumConcat(Lacing(front), PacketLacing(|last|));
    }
  }

  /** The fields of a page read back where they were written. */
  lemma HeaderFields(b: seq<Byte>, count: nat, granule: nat, sequence: nat, flags: Byte, crc: Word, tail: seq<Byte>)
    requires b == Header(count, granule, sequence, flags, crc) + tail
    ensures b[..4] == CAPTURE && b[4] == 0 && b[5] == flags && b[26] == count % 256
    ensures FromLittleEndian(b[6..14]) == granule % Pow256(8)
    ensures FromLittleEndian(b[14..18]) == SERIAL
    ensures FromLittleEndian(b[18..22]) == sequence % WORD
    ensures FromLittleEndian(b[22..26]) == crc
  {
    hide FromLittleEndian;
    var h := Header(count, granule, sequence, flags, crc);
    assert b[..4] == h[..4] && b[6..14] == h[6..14] == LittleEndian(granule, 8);
    assert b[14..18] == h[14..18] == LittleEndian(SERIAL, 4);
    assert b[18..22] == h[18..22] == LittleEndian(sequence, 4);
    assert b[22..26] == h[22..26] == LittleEndian(crc, 4);
    LittleEndianRoundTrip(granule, 8);
    LittleEndianRoundTrip(SERIAL, 4);
    LittleEndianRoundTrip(sequence, 4);
    LittleEndianRoundTrip(crc, 4);
    assert Pow256(4) == WORD;
  }

  lemma ZeroField()
    ensures LittleEndian(0, 4) == [0, 0, 0, 0]
  {
  }

  /** The checksum stored is that of the page with its checksum field zeroed. */
  lemma ChecksumHolds(page: seq<Byte>, packets: seq<Packet>, granule: nat, sequence: nat, flags: Byte)
    requires page == Page(packets, granule, sequence, flags)
    ensures |page| >= 27 && FromLittleEndian(page[22..26]) == Checksum(page)
  {
    hide Crc, LittleEndian, FromLittleEndian, Lacing, Body;
    var zeroed := PageWith(packets, granule, sequence, flags, 0);
    var crc := Crc(zeroed);
    var tail := Lacing(packets) + Body(packets);
    assert page == Header(|Lacing(packets)|, granule, sequence, flags, crc) + tail;
    HeaderFields(page, |Lacing(packets)|, granule, sequence, flags, crc, tail);
    CrcField(packets, granule, sequence, flags, crc, zeroed);
    CrcField(packets, granule, sequence, flags, 0, zeroed);
    ZeroField();
    assert page[..22] + [0, 0, 0, 0] + page[26..] == zeroed;
  }

  lemma FieldsFrom(page: seq<Byte>, lacing: seq<Byte>, body: seq<Byte>)
    requires |page| >= 27 && page[..4] == CAPTURE && page[4] == 0
    requires page[26] == |lacing| && page[27..] == lacing + body && Sum(lacing) == |body|
    ensures Framed(page) && PageEnd(page) == |page|
    ensures Fields(page) == PageRecord(
      page[5], FromLittleEndian(page[6..14]), FromLittleEndian(page[14..18]), FromLittleEndian(page[18..22]), lacing, body)
  {
    assert page[27..27 + |lacing|] == page[27..][..|lacing|] == lacing;
    assert page[27..][|lacing|..] == body;
  }

  /** The page written, field by field. */
  lemma PageFields(page: seq<Byte>, packets: seq<Packet>, granule: nat, sequence: nat, flags: Byte)
    requires page == Page(packets, granule, sequence, flags) && SegmentsOf(packets) <= 255
    ensures Framed(page) && PageEnd(page) == |page|
    ensures Fields(page) == RecordOf(packets, granule, sequence, flags)
  {
    hide LittleEndian, FromLittleEndian, Lacing, Body, Sum, Crc, Header;
    var lacing, body := Lacing(packets), Body(packets);
    var crc := Crc(PageWith(packets, granule, sequence, flags, 0));
    LacingSum(packets);
    Behind(page, Header(|lacing|, granule, sequence, flags, crc), lacing, body);
    HeaderFields(page, |lacing|, granule, sequence, flags, crc, lacing + body);
    FieldsFrom(page, lacing, body);
  }

  lemma Behind(page: seq<Byte>, header: seq<Byte>, lacing: seq<Byte>, body: seq<Byte>)
    requires page == header + lacing + body && |header| == 27
    ensures page == header + (lacing + body) && page[27..] == lacing + body
  {
  }

  lemma FitsReadsBack(packets: seq<Packet>, granule: nat, sequence: nat, flags: Byte, rest: seq<Byte>)
    requires SegmentsOf(packets) <= 255
    ensures ReadPage(Page(packets, granule, sequence, flags) + rest) == Some((RecordOf(packets, granule, sequence, flags), rest))
  {
    var page := Page(packets, granule, sequence, flags);
    PageFields(page, packets, granule, sequence, flags);
    ChecksumHolds(page, packets, granule, sequence, flags);
    InFront(page, rest);
  }

  /** What follows a page does not change how it reads. */
  lemma InFront(page: seq<Byte>, rest: seq<Byte>)
    requires Framed(page) && PageEnd(page) == |page|
    ensures Framed(page + rest) && PageEnd(page + rest) == |page|
    ensures (page + rest)[..|page|] == page && (page + rest)[|page|..] == rest
  {
    var b := page + rest;
    assert b[..4] == page[..4];
    assert b[27..27 + b[26] as nat] == page[27..27 + page[26] as nat];
  }

  /**
   * A page written is read back whole, checksum and all, exactly when its lacing values fit the
   * one byte that counts them.
   */
  lemma PageReadsBack(packets: seq<Packet>, granule: nat, sequence: nat, flags: Byte, rest: seq<Byte>)
    ensures ReadPage(Page(packets, granule, sequence, flags) + rest) == Some((RecordOf(packets, granule, sequence, flags), rest))
            <==> SegmentsOf(packets) <= 255
  {
    LacingSum(packets);
    if SegmentsOf(packets) <= 255 {
      FitsReadsBack(packets, granule, sequence, flags, rest);
    } else {
      var r := ReadPage(Page(packets, granule, sequence, flags) + rest);
      if r.Some? {
        assert |r.value.0.lacing| <= 255 < |Lacing(packets)|;
      }
    }
  }

  /** All lacing values of a packet but the last are 255. */
  lemma {:induction false} LacingIsFull(length: nat, k: nat)
    requires k < length / 255
    ensures k < |PacketLacing(length)| && PacketLacing(length)[k] == 255
    decreases k
  {
    PacketLacingSum(length);
    if k > 0 {
      LacingIsFull(length - 255, k - 1);
      assert PacketLacing(length)[k] == PacketLacing(length - 255)[k - 1];
    }
  }

  /** Lacing values of 255 end no packet. */
  lemma {:induction false} NothingEnds(lacing: seq<Byte>, body: seq<Byte>, open: Option<Packet>)
    requires Sum(lacing) == |body| && forall i :: 0 <= i < |lacing| ==> lacing[i] == 255
    ensures Unlace(lacing, body, open).0 == []
    decreases |lacing|
  {
    if lacing != [] { NothingEnds(lacing[1..], body[255..], Some(open.GetOr([]) + body[..255])); }
  }

  /** One packet's lacing values, with or without a part read before, end exactly that packet. */
  lemma {:induction false} UnlacePacket(packet: Packet, open: Option<Packet>, lacing: seq<Byte>, body: seq<Byte>)
    requires Sum(lacing) == |body|
    ensures Sum(PacketLacing(|packet|) + lacing) == |packet + body|
    ensures Unlace(PacketLacing(|packet|) + lacing, packet + body, open)
            == ([open.GetOr([]) + packet] + Unlace(lacing, body, None).0, Unlace(lacing, body, None).1)
    decreases |packet|
  {
    PacketLacingSum(|packet|);
    SumConcat(PacketLacing(|packet|), lacing);
    var all := PacketLacing(|packet|) + lacing;
    if |packet| < 255 {
      assert all[1..] == lacing;
      assert (packet + body)[..|packet|] == packet && (packet + body)[|packet|..] == body;
    } else {
      var rest := packet[255..];
      assert all[1..] == PacketLacing(|rest|) + lacing;
      assert (packet + body)[..255] == packet[..255] && (packet + body)[255..] == rest + body;
      UnlacePacket(rest, Some(open.GetOr([]) + packet[..255]), lacing, body);
      assert open.GetOr([]) + packet[..255] + rest == open.GetOr([]) + packet;
    }
  }

  lemma LacingLast(front: seq<Packet>, last: Packet, lacing: seq<Byte>, body: seq<Byte>)
    ensures Lacing(front + [last]) + lacing == Lacing(front) + (PacketLacing(|last|) + lacing)
    ensures Body(front + [last]) + body == Body(front) + (last + body)
  {
    assert (front + [last])[..|front|] == front;
  }

  lemma LacingNone(lacing: seq<Byte>, body: seq<Byte>, done: seq<Packet>)
    ensures Lacing([]) + lacing == lacing && Body([]) + body == body && [] + done == done
  {
  }

  lemma {:induction false} UnlacePackets(packets: seq<Packet>, lacing: seq<Byte>, body: seq<Byte>, done: seq<Packet>, left: Option<Packet>)
    requires Sum(lacing) == |body| && Unlace(lacing, body, None) == (done, left)
    ensures Sum(Lacing(packets) + lacing) == |Body(packets) + body|
    ensures Unlace(Lacing(packets) + lacing, Body(packets) + body, None) == (packets + done, left)
    decreases |packets|
  {
    hide Sum, Unlace, Lacing, Body, PacketLacing;
    if packets == [] {
      LacingNone(lacing, body, done);
    } else {
      var front, last := packets[..|packets| - 1], packets[|packets| - 1];
      UnlacePacket(last, None, lacing, body);
      assert [] + last == last;
      UnlacePackets(front, PacketLacing(|last|) + lacing, last + body, [last] + done, left);
      LacingLast(front, last, lacing, body);
      assert packets == front + [last];
      assert front + ([last] + done) == packets + done;
    }
  }

  /** Taking a page's lacing apart gives its packets, and leaves none open. */
  lemma PageUnlaces(packets: seq<Packet>)
    ensures Sum(Lacing(packets)) == |Body(packets)|
    ensures Unlace(Lacing(packets), Body(packets), None) == (packets, None)
  {
    LacingSum(packets);
    UnlacePackets(packets, [], [], [], None);
    assert Lacing(packets) + [] == Lacing(packets) && Body(packets) + [] == Body(packets) && packets + [] == packets;
  }
}
