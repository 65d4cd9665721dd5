/**
 * Pictures in a loop: this hop's are attached, earlier ones give way oldest first, and the loop
 * stays within its budget. Bytes are counted in quarters, since a part's size may come to a
 * fraction.
 *
 * What a picture weighs is read off its data URL, three quarters of the characters behind the comma
 * less the padding; for a picture the loop was given that is just its number of bytes, which is what
 * lets the budget of the loop be kept by looking at the text of it alone.
 */
module LoopPictures {
  import opened Wrappers
  import opened JsStrings
  import opened Lists
  import opened Bytes
  import opened Anthropic

  const LOOP_PICTURES_MAX: nat := 12
  const LOOP_PICTURE_BYTES_MAX: nat := 8_000_000

  datatype Picture = Picture(path: string, mime: string, bytes: seq<Byte>)

  // ---- Base64, section 4 of RFC 4648 ----

  function Digit(n: nat): char
    requires n < 64
  {
    if n < 26 then ('A' as int + n) as char
    else if n < 52 then ('a' as int + n - 26) as char
    else if n < 62 then ('0' as int + n - 52) as char
    else if n == 62 then '+' else '/'
  }

  /** The four characters of up to three bytes. */
  function Group(b: seq<Byte>): (r: string)
    requires 1 <= |b| <= 3
    ensures |r| == 4
  {
    if |b| == 1 then [Digit(b[0] / 4), Digit(b[0] % 4 * 16), '=', '=']
    else if |b| == 2 then [Digit(b[0] / 4), Digit(b[0] % 4 * 16 + b[1] / 16), Digit(b[1] % 16 * 4), '=']
    else [Digit(b[0] / 4), Digit(b[0] % 4 * 16 + b[1] / 16), Digit(b[1] % 16 * 4 + b[2] / 64), Digit(b[2] % 64)]
  }

  function Encode(b: seq<Byte>): string {
    if b == [] then "" else if |b| <= 3 then Group(b) else Group(b[..3]) + Encode(b[3..])
  }

  function CommaAt(url: string): (r: Option<nat>)
    ensures r.Some? ==> r.value < |url| && url[r.value] == ',' && ',' !in url[..r.value]
    ensures r.None? ==> ',' !in url
  {
    if url == "" then None
    else if url[0] == ',' then Some(0)
    else
      match CommaAt(url[1..])
      case None => None
      case Some(k) =>
        assert url[..k + 1] == [url[0]] + url[1..][..k];
        Some(k + 1)
  }

  predicate EndsWith(s: string, tail: string) {
    |tail| <= |s| && s[|s| - |tail|..] == tail
  }

  function Padding(url: string): nat {
    if EndsWith(url, "==") then 2 else if EndsWith(url, "=") then 1 else 0
  }

  /** `sentBytes` of a picture, times four. */
  function SentQuarters(url: string): int {
    match CommaAt(url)
    case None => 4 * Units(url)
    case Some(comma) => 3 * Units(url[comma + 1..]) - 4 * Padding(url)
  }

  function DataUrl(picture: Picture): string {
    "data:" + picture.mime + ";base64," + Encode(picture.bytes)
  }

  lemma DigitIsPlain(n: nat)
    requires n < 64
    ensures Digit(n) as int < 128 && Digit(n) != ',' && Digit(n) != '='
  {
  }

  predicate IsPlain(c: char) {
    c as int < 128 && c != ','
  }

  lemma GroupShape(b: seq<Byte>)
    requires 1 <= |b| <= 3
    ensures AllPlain(Group(b))
    ensures Group(b)[3] == '=' <==> |b| < 3
    ensures Group(b)[2] == '=' <==> |b| < 2
  {
    DigitIsPlain(b[0] / 4);
    if |b| == 1 {
      DigitIsPlain(b[0] % 4 * 16);
    } else {
      DigitIsPlain(b[0] % 4 * 16 + b[1] / 16);
      if |b| == 2 {
        DigitIsPlain(b[1] % 16 * 4);
      } else {
        DigitIsPlain(b[1] % 16 * 4 + b[2] / 64);
        DigitIsPlain(b[2] % 64);
      }
    }
  }

  lemma EncodeStep(b: seq<Byte>)
    requires |b| > 3
    ensures Encode(b) == Group(b[..3]) + Encode(b[3..])
  {
  }

  lemma EncodeShort(b: seq<Byte>)
    requires |b| <= 3
    ensures Encode(b) == if b == [] then "" else Group(b)
  {
  }

  /** How long the encoding is, what it holds, and how it is padded. */
  lemma {:induction false} EncodeShape(b: seq<Byte>)
    ensures |Encode(b)| == 4 * ((|b| + 2) / 3)
    ensures AllPlain(Encode(b))
    ensures b != [] ==> (Encode(b)[|Encode(b)| - 1] == '=' <==> |b| % 3 != 0)
    ensures b != [] ==> (Encode(b)[|Encode(b)| - 2] == '=' <==> |b| % 3 == 1)
    decreases |b|
  {
    hide Group, AllPlain, Encode;
    if |b| <= 3 {
      EncodeShort(b);
      NothingPlain();
      if b != [] {
        GroupShape(b);
      }
    } else {
      EncodeStep(b);
      GroupShape(b[..3]);
      EncodeShape(b[3..]);
      PlainConcat(Group(b[..3]), Encode(b[3..]));
      LastTwo(Group(b[..3]), Encode(b[3..]));
    }
  }

  predicate AllPlain(s: string) {
    forall i :: 0 <= i < |s| ==> IsPlain(s[i])
  }

  lemma NothingPlain()
    ensures AllPlain("")
  {
  }

  lemma PlainConcat(a: string, b: string)
    requires AllPlain(a) && AllPlain(b)
    ensures AllPlain(a + b)
  {
  }

  lemma LastTwo<T>(a: seq<T>, b: seq<T>)
    requires |a| >= 2
    ensures |b| >= 2 ==> (a + b)[|a + b| - 1] == b[|b| - 1] && (a + b)[|a + b| - 2] == b[|b| - 2]
    ensures b == [] ==> (a + b)[|a + b| - 1] == a[|a| - 1]
  {
  }

  lemma EndsByChars(s: string)
    requires |s| >= 2
    ensures EndsWith(s, "=") <==> s[|s| - 1] == '='
    ensures EndsWith(s, "==") <==> s[|s| - 1] == '=' && s[|s| - 2] == '='
  {
    assert s[|s| - 1..] == [s[|s| - 1]];
    assert s[|s| - 2..] == [s[|s| - 2], s[|s| - 1]];
  }

  lemma PaddingOf(head: string, b: seq<Byte>)
    requires |head| >= 2 && head[|head| - 1] != '='
    ensures Padding(head + Encode(b)) == (if |b| % 3 == 1 then 2 else if |b| % 3 == 2 then 1 else 0)
  {
    hide Encode, AllPlain, EndsWith;
    EncodeShape(b);
    EndsByChars(head + Encode(b));
    LastTwo(head, Encode(b));
  }

  lemma PlainHasNoComma(s: string)
    requires AllPlain(s)
    ensures Units(s) == |s|
  {
    UnitsAscii(s);
  }

  lemma CommaFirst(head: string, tail: string)
    requires ',' !in head
    ensures CommaAt(head + [','] + tail) == Some(|head|)
  {
    var url := head + [','] + tail;
    assert url[|head|] == ',';
    var k := CommaAt(url);
    assert forall i :: 0 <= i < |head| ==> url[i] == head[i];
    assert k.Some?;
    assert k.value >= |head|;
    assert forall j :: |head| < j <= |url| ==> url[..j][|head|] == ',';
  }

  /** The size read off a picture's data URL is the picture's size. */
  lemma SentIsSize(picture: Picture)
    requires ',' !in picture.mime
    ensures SentQuarters(DataUrl(picture)) == 4 * |picture.bytes|
  {
    hide Encode, AllPlain, CommaAt, Padding, Units;
    var head, code := "data:" + picture.mime + ";base64", Encode(picture.bytes);
    var url := DataUrl(picture);
    assert "data:" + picture.mime + ";base64," == head + [','];
    assert url == head + [','] + code;
    CommaFirst(head, code);
    assert url[|head| + 1..] == code;
    EncodeShape(picture.bytes);
    PlainHasNoComma(code);
    PaddingOf(head + [','], picture.bytes);
  }

  // ---- What the loop's pictures spend ----

  function UrlOf(part: Part): seq<string> {
    if part.ImagePart? then [part.url] else []
  }

  predicate IsPictureLine(m: Message) {
    m.User? && m.content.Parts?
  }

  /** The pictures of a line, and of a loop, in order. */
  function LinePictures(m: Message): seq<string> {
    if IsPictureLine(m) then FlatMap(UrlOf, m.content.parts) else []
  }

  function Pictures(loop: seq<Message>): seq<string> {
    FlatMap(LinePictures, loop)
  }

  function Size(urls: seq<string>): int {
    if urls == [] then 0 else SentQuarters(urls[0]) + Size(urls[1..])
  }

  lemma {:induction false} SizeConcat(a: seq<string>, b: seq<string>)
    ensures Size(a + b) == Size(a) + Size(b)
  {
    if a == [] {
      assert a + b == b;
    } else {
      assert (a + b)[1..] == a[1..] + b;
      SizeConcat(a[1..], b);
    }
  }

  lemma PicturesStep(loop: seq<Message>, i: nat)
    requires i < |loop|
    ensures Pictures(loop[..i + 1]) == Pictures(loop[..i]) + LinePictures(loop[i])
    ensures Size(Pictures(loop[..i + 1])) == Size(Pictures(loop[..i])) + Size(LinePictures(loop[i]))
  {
    hide FlatMap, LinePictures, Size;
    assert loop[..i + 1] == loop[..i] + [loop[i]];
    FlatMapConcat(LinePictures, loop[..i], [loop[i]]);
    FlatMapOne(LinePictures, loop[i]);
    SizeConcat(Pictures(loop[..i]), LinePictures(loop[i]));
  }

  lemma NoPictures()
    ensures Pictures([]) == [] && Size([]) == 0
  {
  }

  /** `loopPictureSpend`, bytes in quarters. */
  method LoopPictureSpend(loop: seq<Message>) returns (images: nat, bytes: int)
    ensures images == |Pictures(loop)| && bytes == Size(Pictures(loop))
  {
    hide SentQuarters, FlatMap, Pictures, Size;
    images, bytes := 0, 0;
    NoPictures();
    assert loop[..0] == [];
    for i := 0 to |loop|
      invariant images == |Pictures(loop[..i])| && bytes == Size(Pictures(loop[..i]))
    {
      PicturesStep(loop, i);
      NoPictures();
      if IsPictureLine(loop[i]) {
        var n, size := LineSpend(loop[i].content.parts);
        images, bytes := images + n, bytes + size;
      }
    }
    assert loop[..|loop|] == loop;
  }

  method LineSpend(parts: seq<Part>) returns (images: nat, bytes: int)
    ensures images == |FlatMap(UrlOf, parts)| && bytes == Size(FlatMap(UrlOf, parts))
  {
    images, bytes := 0, 0;
    for j := 0 to |parts|
      invariant images == |FlatMap(UrlOf, parts[..j])| && bytes == Size(FlatMap(UrlOf, parts[..j]))
    {
      assert parts[..j + 1] == parts[..j] + [parts[j]];
      FlatMapConcat(UrlOf, parts[..j], [parts[j]]);
      FlatMapOne(UrlOf, parts[j]);
      SizeConcat(FlatMap(UrlOf, parts[..j]), UrlOf(parts[j]));
      if parts[j].ImagePart? {
        images, bytes := images + 1, bytes + SentQuarters(parts[j].url);
      }
    }
    assert parts[..|parts|] == parts;
  }

  function TotalBytes(hop: seq<Picture>): nat {
    if hop == [] then 0 else TotalBytes(hop[..|hop| - 1]) + |hop[|hop| - 1].bytes|
  }

  /** `fitsHop`. */
  predicate FitsHop(hop: seq<Picture>, next: Picture) {
    |hop| < LOOP_PICTURES_MAX && TotalBytes(hop) + |next.bytes| <= LOOP_PICTURE_BYTES_MAX
  }

  /** A hop that was built one picture at a time, each while it still fitted. */
  predicate Built(hop: seq<Picture>) {
    hop == [] || (Built(hop[..|hop| - 1]) && FitsHop(hop[..|hop| - 1], hop[|hop| - 1]))
  }

  lemma BuiltFits(hop: seq<Picture>)
    requires Built(hop)
    ensures |hop| <= LOOP_PICTURES_MAX && TotalBytes(hop) <= LOOP_PICTURE_BYTES_MAX
  {
  }

  // ---- Giving way ----

  /** The first `k` pictures of a line replaced by the note that they left. */
  function EvictParts(parts: seq<Part>, k: nat, note: string): seq<Part> {
    if parts == [] then []
    else if parts[0].ImagePart? && k > 0 then [TextPart(note)] + EvictParts(parts[1..], k - 1, note)
    else [parts[0]] + EvictParts(parts[1..], k, note)
  }

  function EvictLine(m: Message, k: nat, note: string): Message {
    if IsPictureLine(m) then User(Parts(EvictParts(m.content.parts, k, note))) else m
  }

  function Less(k: nat, n: nat): nat {
    if k > n then k - n else 0
  }

  /** The first `k` pictures of a loop replaced, and nothing else changed. */
  function Evict(loop: seq<Message>, k: nat, note: string): seq<Message> {
    if loop == [] then [] else [EvictLine(loop[0], k, note)] + Evict(loop[1..], Less(k, |LinePictures(loop[0])|), note)
  }

  function From<T>(s: seq<T>, k: nat): seq<T> {
    if k <= |s| then s[k..] else []
  }

  lemma FromConcat<T>(a: seq<T>, b: seq<T>, k: nat)
    ensures From(a + b, k) == From(a, k) + From(b, Less(k, |a|))
  {
  }

  lemma {:induction false} EvictedParts(parts: seq<Part>, k: nat, note: string)
    ensures FlatMap(UrlOf, EvictParts(parts, k, note)) == From(FlatMap(UrlOf, parts), k)
    decreases |parts|
  {
    if parts != [] {
      var rest := parts[1..];
      FromConcat(UrlOf(parts[0]), FlatMap(UrlOf, rest), k);
      if parts[0].ImagePart? && k > 0 {
        EvictedParts(rest, k - 1, note);
        Headed(TextPart(note), EvictParts(rest, k - 1, note));
      } else {
        EvictedParts(rest, k, note);
        Headed(parts[0], EvictParts(rest, k, note));
      }
    }
  }

  lemma Headed(part: Part, rest: seq<Part>)
    ensures FlatMap(UrlOf, [part] + rest) == UrlOf(part) + FlatMap(UrlOf, rest)
  {
    FlatMapConcat(UrlOf, [part], rest);
    FlatMapOne(UrlOf, part);
  }

  lemma {:induction false} NoneEvictedParts(parts: seq<Part>, note: string)
    ensures EvictParts(parts, 0, note) == parts
  {
    if parts != [] { NoneEvictedParts(parts[1..], note); }
  }

  lemma EvictedLine(m: Message, k: nat, note: string)
    ensures LinePictures(EvictLine(m, k, note)) == From(LinePictures(m), k)
    ensures k == 0 ==> EvictLine(m, k, note) == m
  {
    if IsPictureLine(m) {
      EvictedParts(m.content.parts, k, note);
      NoneEvictedParts(m.content.parts, note);
    }
  }

  /** What is left are the pictures behind the first `k`; with none to go nothing changes. */
  lemma {:induction false} Evicted(loop: seq<Message>, k: nat, note: string)
    ensures Pictures(Evict(loop, k, note)) == From(Pictures(loop), k)
    ensures |Evict(loop, k, note)| == |loop|
    decreases |loop|
  {
    hide EvictLine, LinePictures, From;
    if loop != [] {
      var n := |LinePictures(loop[0])|;
      EvictedLine(loop[0], k, note);
      Evicted(loop[1..], Less(k, n), note);
      FromConcat(LinePictures(loop[0]), Pictures(loop[1..]), k);
      FlatMapConcat(LinePictures, [EvictLine(loop[0], k, note)], Evict(loop[1..], Less(k, n), note));
      FlatMapOne(LinePictures, EvictLine(loop[0], k, note));
    } else {
      assert From(Pictures(loop), k) == [] by { NoneFrom<string>(k); }
    }
  }

  lemma NoneFrom<T>(k: nat)
    ensures From<T>([], k) == []
  {
  }

  lemma {:induction false} NoneEvicted(loop: seq<Message>, note: string)
    ensures Evict(loop, 0, note) == loop
  {
    hide EvictLine;
    if loop != [] {
      EvictedLine(loop[0], 0, note);
      NoneEvicted(loop[1..], note);
    }
  }

  /** Evicting from a loop is evicting from its front, then from the rest what the front had not. */
  lemma {:induction false} EvictConcat(a: seq<Message>, b: seq<Message>, k: nat, note: string)
    ensures Evict(a + b, k, note) == Evict(a, k, note) + Evict(b, Less(k, |Pictures(a)|), note)
    decreases |a|
  {
    if a == [] {
      assert a + b == b;
    } else {
      assert (a + b)[1..] == a[1..] + b;
      EvictConcat(a[1..], b, Less(k, |LinePictures(a[0])|), note);
    }
  }

  /** With the first `k` pictures gone, the hop fits. */
  predicate Roomy(pictures: seq<string>, k: nat, hop: seq<Picture>) {
    && k <= |pictures|
    && |pictures| - k + |hop| <= LOOP_PICTURES_MAX
    && Size(pictures[k..]) + 4 * TotalBytes(hop) <= 4 * LOOP_PICTURE_BYTES_MAX
  }

  /** The fewest pictures that have to go. */
  ghost predicate Fewest(pictures: seq<string>, k: nat, hop: seq<Picture>) {
    Roomy(pictures, k, hop) && forall j :: 0 <= j < k ==> !Roomy(pictures, j, hop)
  }

  /** Where the eviction stands: `k` pictures are gone, and only as long as there was no room. */
  ghost predicate Evicting(pictures: seq<string>, k: nat, passed: nat, hop: seq<Picture>, images: nat, bytes: int) {
    && k <= passed <= |pictures|
    && images == |pictures| - k && bytes == Size(pictures[k..])
    && (forall j :: 0 <= j < k ==> !Roomy(pictures, j, hop))
    && (k < passed ==> Roomy(pictures, k, hop))
  }

  predicate FitsNow(images: nat, bytes: int, hop: seq<Picture>) {
    images + |hop| <= LOOP_PICTURES_MAX && bytes + 4 * TotalBytes(hop) <= 4 * LOOP_PICTURE_BYTES_MAX
  }

  /** One more picture passed: let go, or kept when there is room. */
  lemma PassOne(pictures: seq<string>, k: nat, passed: nat, hop: seq<Picture>, images: nat, bytes: int)
    requires Evicting(pictures, k, passed, hop, images, bytes) && passed < |pictures|
    ensures FitsNow(images, bytes, hop) ==> Evicting(pictures, k, passed + 1, hop, images, bytes)
    ensures !FitsNow(images, bytes, hop) ==>
              k == passed && images > 0 && Evicting(pictures, k + 1, passed + 1, hop, images - 1, bytes - SentQuarters(pictures[k]))
  {
    assert Roomy(pictures, k, hop) == FitsNow(images, bytes, hop);
    assert pictures[k..][1..] == pictures[k + 1..];
  }

  lemma NoParts(k: nat, note: string)
    ensures FlatMap(UrlOf, []) == [] && EvictParts([], k, note) == []
  {
  }

  lemma EvictingAt(pictures: seq<string>, k: nat, passed: nat, hop: seq<Picture>, images: nat, bytes: int)
    requires Evicting(pictures, k, passed, hop, images, bytes)
    ensures k <= passed <= |pictures|
  {
  }

  /** A line's pictures, given way one by one. */
  method EvictFromLine(
    parts: seq<Part>, images: nat, bytes: int, hop: seq<Picture>, note: string, ghost pictures: seq<string>, ghost k: nat, ghost passed: nat)
    returns (parts': seq<Part>, images': nat, bytes': int, ghost k': nat)
    requires Evicting(pictures, k, passed, hop, images, bytes)
    requires passed + |FlatMap(UrlOf, parts)| <= |pictures| && pictures[passed..passed + |FlatMap(UrlOf, parts)|] == FlatMap(UrlOf, parts)
    ensures k <= k' && Evicting(pictures, k', passed + |FlatMap(UrlOf, parts)|, hop, images', bytes')
    ensures parts' == EvictParts(parts, Less(k', passed), note)
  {
    hide SentQuarters, Roomy, FlatMap, EvictParts, Evicting, FitsNow;
    parts', images', bytes', k' := [], images, bytes, k;
    ghost var at := passed;
    assert parts[..0] == [];
    NoParts(Less(k, passed), note);
    EvictingAt(pictures, k, passed, hop, images, bytes);
    for j := 0 to |parts|
      invariant at == passed + |FlatMap(UrlOf, parts[..j])| <= |pictures| && k <= k' <= at
      invariant Evicting(pictures, k', at, hop, images', bytes')
      invariant parts' == EvictParts(parts[..j], Less(k', passed), note)
    {
      var part := parts[j];
      PartStep(parts, j, pictures, passed);
      assert parts[..j + 1] == parts[..j] + [part];
      EvictPartsLast(parts[..j], part, Less(k', passed), note);
      if part.ImagePart? {
        PassOne(pictures, k', at, hop, images', bytes');
        EvictingAt(pictures, k', at, hop, images', bytes');
        if FitsNow(images', bytes', hop) {
          parts' := parts' + [part];
        } else {
          EvictPartsMore(parts[..j], Less(k', passed), note);
          EvictPartsLast(parts[..j], part, Less(k' + 1, passed), note);
          images' := images' - 1;
          bytes' := bytes' - SentQuarters(part.url);
          k' := k' + 1;
          parts' := parts' + [TextPart(note)];
        }
        at := at + 1;
      } else {
        parts' := parts' + [part];
      }
    }
    assert parts[..|parts|] == parts;
  }

  lemma PartStep(parts: seq<Part>, j: nat, pictures: seq<string>, passed: nat)
    requires j < |parts| && passed + |FlatMap(UrlOf, parts)| <= |pictures|
    requires pictures[passed..passed + |FlatMap(UrlOf, parts)|] == FlatMap(UrlOf, parts)
    ensures |FlatMap(UrlOf, parts[..j + 1])| == |FlatMap(UrlOf, parts[..j])| + (if parts[j].ImagePart? then 1 else 0) <= |FlatMap(UrlOf, parts)|
    ensures parts[j].ImagePart? ==> pictures[passed + |FlatMap(UrlOf, parts[..j])|] == parts[j].url
  {
    var a, b := parts[..j], parts[j + 1..];
    assert parts == a + [parts[j]] + b;
    assert parts[..j + 1] == a + [parts[j]];
    FlatMapConcat(UrlOf, a + [parts[j]], b);
    FlatMapConcat(UrlOf, a, [parts[j]]);
    FlatMapOne(UrlOf, parts[j]);
    if parts[j].ImagePart? {
      assert FlatMap(UrlOf, parts)[|FlatMap(UrlOf, a)|] == parts[j].url;
    }
  }

  lemma {:induction false} EvictPartsLast(a: seq<Part>, part: Part, k: nat, note: string)
    ensures EvictParts(a + [part], k, note) == EvictParts(a, k, note) + (if part.ImagePart? && k > |FlatMap(UrlOf, a)| then [TextPart(note)] else [part])
    decreases |a|
  {
    if a == [] {
      assert a + [part] == [part];
      assert [part][1..] == [];
    } else {
      assert (a + [part])[1..] == a[1..] + [part];
      EvictPartsLast(a[1..], part, if a[0].ImagePart? && k > 0 then k - 1 else k, note);
    }
  }

  /** Once all of a line's pictures are gone, more to go changes nothing in it. */
  lemma {:induction false} EvictPartsMore(a: seq<Part>, k: nat, note: string)
    requires k >= |FlatMap(UrlOf, a)|
    ensures EvictParts(a, k + 1, note) == EvictParts(a, k, note)
    decreases |a|
  {
    if a != [] {
      if a[0].ImagePart? {
        EvictPartsMore(a[1..], k - 1, note);
      } else {
        EvictPartsMore(a[1..], k, note);
      }
    }
  }

  // ---- Attaching ----

  /** `evictedNote`, in either language. */
  datatype Wording = Wording(evicted: string, heading: string)

  function PartsOfPicture(picture: Picture): seq<Part> {
    [TextPart(picture.path), ImagePart(DataUrl(picture))]
  }

  /** The line that carries this hop's pictures, each behind its path. */
  function PictureLine(hop: seq<Picture>, wording: Wording): Message {
    User(Parts([TextPart(wording.heading)] + FlatMap(PartsOfPicture, hop)))
  }

  /**
   * `attachPictures`: the fewest older pictures go, oldest first, that make room for this hop's;
   * nothing else of the loop changes, and one line more carries the hop.
   */
  method AttachPictures(loop: seq<Message>, hop: seq<Picture>, wording: Wording) returns (r: seq<Message>, ghost k: nat)
    requires Built(hop)
    ensures hop == [] ==> r == loop
    ensures hop != [] ==> Fewest(Pictures(loop), k, hop) && r == Evict(loop, k, wording.evicted) + [PictureLine(hop, wording)]
  {
    if |hop| == 0 { return loop, 0; }
    r, k := GiveWay(loop, hop, wording.evicted);
    var line := WritePictureLine(hop, wording);
    r := r + [line];
  }

  method WritePictureLine(hop: seq<Picture>, wording: Wording) returns (line: Message)
    ensures line == PictureLine(hop, wording)
  {
    hide DataUrl;
    var parts: seq<Part> := [TextPart(wording.heading)];
    for j := 0 to |hop|
      invariant parts == [TextPart(wording.heading)] + FlatMap(PartsOfPicture, hop[..j])
    {
      assert hop[..j + 1] == hop[..j] + [hop[j]];
      FlatMapConcat(PartsOfPicture, hop[..j], [hop[j]]);
      FlatMapOne(PartsOfPicture, hop[j]);
      parts := parts + [TextPart(hop[j].path)];
      parts := parts + [ImagePart(DataUrl(hop[j]))];
    }
    assert hop[..|hop|] == hop;
    line := User(Parts(parts));
  }

  /** Older pictures give way until there is room. */
  method GiveWay(loop: seq<Message>, hop: seq<Picture>, note: string) returns (r: seq<Message>, ghost k: nat)
    requires Built(hop)
    ensures Fewest(Pictures(loop), k, hop) && r == Evict(loop, k, note)
  {
    var images, bytes := LoopPictureSpend(loop);
    ghost var pictures, passed := Pictures(loop), 0;
    r, k := loop, 0;
    Untouched(loop, hop, images, bytes, note);
    hide Evicting, Evict, EvictLine, FitsNow, Fewest, LinePictures, FlatMap;
    var i := 0;
    while i < |loop| && !FitsNow(images, bytes, hop)
      invariant i <= |loop|
      invariant passed == |Pictures(loop[..i])|
      invariant Evicting(pictures, k, passed, hop, images, bytes)
      invariant r == Evict(loop[..i], k, note) + loop[i..]
    {
      ghost var gone := Evict(loop[..i], k, note);
      LineStep(loop, i);
      AllGone(pictures, k, passed, hop, images, bytes);
      ghost var k0 := k;
      var line;
      line, images, bytes, k := EvictFromMessage(loop[i], images, bytes, hop, note, pictures, k, passed);
      AddLine(loop, i, k0, k, note);
      KeepsLength(loop[..i], k0, note);
      Replaced(gone, loop, i, line);
      r := r[i := line];
      passed := passed + |LinePictures(loop[i])|;
      i := i + 1;
    }
    if i == |loop| {
      assert loop[..i] == loop;
      FinallyFits(pictures, k, hop, images, bytes);
    }
    Enough(loop, i, k, hop, images, bytes, note);
  }

  lemma Untouched(loop: seq<Message>, hop: seq<Picture>, images: nat, bytes: int, note: string)
    requires images == |Pictures(loop)| && bytes == Size(Pictures(loop))
    ensures Evicting(Pictures(loop), 0, 0, hop, images, bytes)
    ensures |Pictures(loop[..0])| == 0 && loop == Evict(loop[..0], 0, note) + loop[0..]
  {
    assert Pictures(loop)[0..] == Pictures(loop);
  }

  lemma Replaced(gone: seq<Message>, loop: seq<Message>, i: nat, line: Message)
    requires i < |loop| && |gone| == i
    ensures (gone + loop[i..])[i := line] == (gone + [line]) + loop[i + 1..]
  {
  }

  lemma KeepsLength(loop: seq<Message>, k: nat, note: string)
    ensures |Evict(loop, k, note)| == |loop|
  {
    Evicted(loop, k, note);
  }

  method EvictFromMessage(m: Message, images: nat, bytes: int, hop: seq<Picture>, note: string, ghost pictures: seq<string>, ghost k: nat, ghost passed: nat)
    returns (m': Message, images': nat, bytes': int, ghost k': nat)
    requires Evicting(pictures, k, passed, hop, images, bytes)
    requires passed + |LinePictures(m)| <= |pictures| && pictures[passed..passed + |LinePictures(m)|] == LinePictures(m)
    ensures k <= k' && Evicting(pictures, k', passed + |LinePictures(m)|, hop, images', bytes')
    ensures m' == EvictLine(m, Less(k', passed), note)
  {
    hide Evicting, FlatMap;
    m', images', bytes', k' := m, images, bytes, k;
    if IsPictureLine(m) {
      var parts;
      parts, images', bytes', k' := EvictFromLine(m.content.parts, images, bytes, hop, note, pictures, k, passed);
      m' := User(Parts(parts));
    }
  }

  /** While there is no room, all pictures passed so far are gone. */
  lemma AllGone(pictures: seq<string>, k: nat, passed: nat, hop: seq<Picture>, images: nat, bytes: int)
    requires Evicting(pictures, k, passed, hop, images, bytes) && !FitsNow(images, bytes, hop)
    ensures k == passed
  {
    assert Roomy(pictures, k, hop) == FitsNow(images, bytes, hop);
  }

  lemma LineStep(loop: seq<Message>, i: nat)
    requires i < |loop|
    ensures var n, m := |Pictures(loop[..i])|, |LinePictures(loop[i])|;
            && |Pictures(loop[..i + 1])| == n + m <= |Pictures(loop)|
            && Pictures(loop)[n..n + m] == LinePictures(loop[i])
  {
    assert loop == loop[..i] + [loop[i]] + loop[i + 1..];
    assert loop[..i + 1] == loop[..i] + [loop[i]];
    FlatMapConcat(LinePictures, loop[..i] + [loop[i]], loop[i + 1..]);
    FlatMapConcat(LinePictures, loop[..i], [loop[i]]);
    FlatMapOne(LinePictures, loop[i]);
  }

  /** Once all of a loop's pictures are gone, more to go changes nothing in it. */
  lemma {:induction false} EvictMore(a: seq<Message>, k: nat, k': nat, note: string)
    requires |Pictures(a)| <= k <= k'
    ensures Evict(a, k', note) == Evict(a, k, note)
    decreases |a|
  {
    if a != [] {
      var n := |LinePictures(a[0])|;
      EvictMore(a[1..], k - n, k' - n, note);
      if IsPictureLine(a[0]) { EvictPartsFar(a[0].content.parts, k, k', note); }
    }
  }

  lemma {:induction false} EvictPartsFar(a: seq<Part>, k: nat, k': nat, note: string)
    requires |FlatMap(UrlOf, a)| <= k <= k'
    ensures EvictParts(a, k', note) == EvictParts(a, k, note)
    decreases k' - k
  {
    if k < k' {
      EvictPartsFar(a, k, k' - 1, note);
      EvictPartsMore(a, k' - 1, note);
    }
  }

  lemma AddLine(loop: seq<Message>, i: nat, k: nat, k': nat, note: string)
    requires i < |loop| && |Pictures(loop[..i])| <= k <= k'
    ensures Evict(loop[..i + 1], k', note) == Evict(loop[..i], k, note) + [EvictLine(loop[i], Less(k', |Pictures(loop[..i])|), note)]
  {
    assert loop[..i + 1] == loop[..i] + [loop[i]];
    EvictConcat(loop[..i], [loop[i]], k', note);
    EvictMore(loop[..i], k, k', note);
    assert [loop[i]][1..] == [];
  }

  /** With every older picture gone, a hop built under `fitsHop` fits. */
  lemma FinallyFits(pictures: seq<string>, k: nat, hop: seq<Picture>, images: nat, bytes: int)
    requires Built(hop) && Evicting(pictures, k, |pictures|, hop, images, bytes)
    ensures FitsNow(images, bytes, hop)
  {
    BuiltFits(hop);
    assert Roomy(pictures, k, hop) == FitsNow(images, bytes, hop);
    if k == |pictures| { assert pictures[k..] == []; }
  }

  lemma Enough(loop: seq<Message>, i: nat, k: nat, hop: seq<Picture>, images: nat, bytes: int, note: string)
    requires i <= |loop| && FitsNow(images, bytes, hop)
    requires Evicting(Pictures(loop), k, |Pictures(loop[..i])|, hop, images, bytes)
    ensures Fewest(Pictures(loop), k, hop) && Evict(loop, k, note) == Evict(loop[..i], k, note) + loop[i..]
  {
    assert loop == loop[..i] + loop[i..];
    EvictConcat(loop[..i], loop[i..], k, note);
    NoneEvicted(loop[i..], note);
  }

  // ---- Within the budget ----

  function DataUrls(hop: seq<Picture>): seq<string> {
    FlatMap((p: Picture) => [DataUrl(p)], hop)
  }

  lemma PictureLineHolds(hop: seq<Picture>, wording: Wording)
    ensures LinePictures(PictureLine(hop, wording)) == DataUrls(hop)
  {
    forall p: Picture
      ensures FlatMap(UrlOf, PartsOfPicture(p)) == [DataUrl(p)]
    {
      Headed(TextPart(p.path), [ImagePart(DataUrl(p))]);
      FlatMapOne(UrlOf, ImagePart(DataUrl(p)));
    }
    FlatMapTwice(PartsOfPicture, UrlOf, (p: Picture) => [DataUrl(p)], hop);
    FlatMapConcat(UrlOf, [TextPart(wording.heading)], FlatMap(PartsOfPicture, hop));
    FlatMapOne(UrlOf, TextPart(wording.heading));
  }

  lemma NoUrls()
    ensures DataUrls([]) == [] && Size([]) == 0
  {
  }

  /** A hop's pictures spend just what they are. */
  lemma {:induction false} HopSize(hop: seq<Picture>)
    requires forall p :: p in hop ==> ',' !in p.mime
    ensures |DataUrls(hop)| == |hop| && Size(DataUrls(hop)) == 4 * TotalBytes(hop)
  {
    hide SentQuarters, DataUrl, FlatMap;
    NoUrls();
    if hop != [] {
      var front, last := hop[..|hop| - 1], hop[|hop| - 1];
      HopSize(front);
      assert hop == front + [last];
      assert last in hop;
      FlatMapConcat((p: Picture) => [DataUrl(p)], front, [last]);
      FlatMapOne((p: Picture) => [DataUrl(p)], last);
      SizeConcat(DataUrls(front), [DataUrl(last)]);
      SentIsSize(last);
    }
  }

  /**
   * Whatever the loop held before, after this hop's pictures are attached it holds the newest of
   * the older ones and all of this hop's, at most twelve, of at most 8,000,000 bytes.
   */
  lemma WithinBudget(loop: seq<Message>, hop: seq<Picture>, k: nat, wording: Wording)
    requires Fewest(Pictures(loop), k, hop) && forall p :: p in hop ==> ',' !in p.mime
    ensures var after := Evict(loop, k, wording.evicted) + [PictureLine(hop, wording)];
            && Pictures(after) == Pictures(loop)[k..] + DataUrls(hop)
            && |Pictures(after)| <= LOOP_PICTURES_MAX && Size(Pictures(after)) <= 4 * LOOP_PICTURE_BYTES_MAX
  {
    Evicted(loop, k, wording.evicted);
    FlatMapConcat(LinePictures, Evict(loop, k, wording.evicted), [PictureLine(hop, wording)]);
    FlatMapOne(LinePictures, PictureLine(hop, wording));
    PictureLineHolds(hop, wording);
    HopSize(hop);
    SizeConcat(Pictures(loop)[k..], DataUrls(hop));
  }

  /** Nothing but pictures changes: every line keeps its place, its role and its other parts. */
  lemma {:induction false} OnlyPicturesChange(loop: seq<Message>, k: nat, note: string, i: nat)
    requires i < |loop|
    ensures |Evict(loop, k, note)| == |loop|
    ensures !IsPictureLine(loop[i]) ==> Evict(loop, k, note)[i] == loop[i]
    ensures IsPictureLine(loop[i]) ==>
              && IsPictureLine(Evict(loop, k, note)[i])
              && SameButEvicted(loop[i].content.parts, Evict(loop, k, note)[i].content.parts, note)
    decreases |loop|
  {
    var left := Less(k, |LinePictures(loop[0])|);
    Evicted(loop, k, note);
    if i == 0 {
      if IsPictureLine(loop[0]) { PartsSameButEvicted(loop[0].content.parts, k, note); }
    } else {
      OnlyPicturesChange(loop[1..], left, note, i - 1);
    }
  }

  predicate SameButEvicted(parts: seq<Part>, parts': seq<Part>, note: string) {
    |parts| == |parts'| && forall j :: 0 <= j < |parts| ==> parts'[j] == parts[j] || (parts[j].ImagePart? && parts'[j] == TextPart(note))
  }

  lemma {:induction false} PartsSameButEvicted(parts: seq<Part>, k: nat, note: string)
    ensures SameButEvicted(parts, EvictParts(parts, k, note), note)
    decreases |parts|
  {
    if parts != [] {
      PartsSameButEvicted(parts[1..], if parts[0].ImagePart? && k > 0 then k - 1 else k, note);
    }
  }
}
