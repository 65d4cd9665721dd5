/** A picture's bytes, from the loop's line to the endpoint's block. */
module PictureData {
  import opened Bytes
  import opened Lists
  import opened Anthropic
  import A = AnthropicRequest
  import opened LoopPictures

  /** What a character stands for in the table of section 4 of RFC 4648; padding stands for nothing. */
  function Sextet(c: char): (n: nat)
    ensures n < 64
  {
    if 'A' <= c <= 'Z' then c as int - 'A' as int
    else if 'a' <= c <= 'z' then 26 + (c as int - 'a' as int)
    else if '0' <= c <= '9' then 52 + (c as int - '0' as int)
    else if c == '+' then 62 else if c == '/' then 63 else 0
  }

  function Word(code: string): nat
    requires |code| >= 4
  {
    ((Sextet(code[0]) * 64 + Sextet(code[1])) * 64 + Sextet(code[2])) * 64 + Sextet(code[3])
  }

  function Three(word: nat): (bytes: seq<Byte>)
    ensures |bytes| == 3
  {
    [word / 65_536 % 256, word / 256 % 256, word % 256]
  }

  /** Read backwards: four characters are three bytes, fewer by the padding. */
  function Decoded(code: string): seq<Byte> {
    if |code| < 4 then []
    else Three(Word(code))[..if code[2] == '=' then 1 else if code[3] == '=' then 2 else 3] + Decoded(code[4..])
  }

  lemma DigitStandsFor(n: nat)
    requires n < 64
    ensures Sextet(Digit(n)) == n && Digit(n) != '='
  {
  }

  /** The bits of up to three bytes, the missing ones zero. */
  function Bits(b: seq<Byte>): nat
    requires 1 <= |b| <= 3
  {
    var x: nat, y: nat, z: nat := b[0], if |b| > 1 then b[1] else 0, if |b| > 2 then b[2] else 0;
    x * 65_536 + y * 256 + z
  }

  lemma GroupHolds(b: seq<Byte>)
    requires 1 <= |b| <= 3
    ensures Word(Group(b)) == Bits(b)
  {
    hide Digit, Sextet;
    DigitStandsFor(b[0] / 4);
    assert Sextet('=') == 0 by { PaddingIsNothing(); }
    if |b| == 1 {
      DigitStandsFor(b[0] % 4 * 16);
    } else {
      DigitStandsFor(b[0] % 4 * 16 + b[1] / 16);
      if |b| == 2 {
        DigitStandsFor(b[1] % 16 * 4);
      } else {
        DigitStandsFor(b[1] % 16 * 4 + b[2] / 64);
        DigitStandsFor(b[2] % 64);
      }
    }
  }

  lemma PaddingIsNothing()
    ensures Sextet('=') == 0
  {
  }

  lemma BytesOfWord(x: Byte, y: Byte, z: Byte)
    ensures var word: nat := (x as nat) * 65_536 + (y as nat) * 256 + z as nat; Three(word) == [x, y, z]
  {
    var word: nat := (x as nat) * 65_536 + (y as nat) * 256 + z as nat;
    ModUnique(word, 65_536, x, y * 256 + z);
    ModUnique(word, 256, x * 256 + y, z);
    ModUnique(x * 256 + y, 256, x, y);
    assert word / 65_536 % 256 == x && word / 256 % 256 == y && word % 256 == z;
  }

  lemma ThreeOf(b: seq<Byte>)
    requires 1 <= |b| <= 3
    ensures Three(Bits(b))[..|b|] == b
  {
    hide Three;
    BytesOfWord(b[0], if |b| > 1 then b[1] else 0, if |b| > 2 then b[2] else 0);
  }

  /** Whatever the bytes, their encoding reads back as just them. */
  lemma {:induction false} EncodingReadsBack(b: seq<Byte>)
    ensures Decoded(Encode(b)) == b
    decreases |b|
  {
    hide Group, Word, Three, Encode, Bits;
    if |b| <= 3 {
      EncodeShort(b);
      assert Decoded("") == [];
      if b != [] {
        GroupReadsBack(b, "");
        assert Group(b) + "" == Group(b) && b + [] == b;
      }
    } else {
      EncodeStep(b);
      GroupReadsBack(b[..3], Encode(b[3..]));
      EncodingReadsBack(b[3..]);
      assert b == b[..3] + b[3..];
    }
  }

  lemma GroupReadsBack(b: seq<Byte>, rest: string)
    requires 1 <= |b| <= 3
    ensures Decoded(Group(b) + rest) == b + Decoded(rest)
  {
    hide Bits, Three;
    GroupShape(b);
    GroupHolds(b);
    ThreeOf(b);
    hide Group, Sextet;
    var code := Group(b) + rest;
    assert code[4..] == rest;
    assert Word(code) == Word(Group(b));
  }

  /** A picture attached to the loop stands in the request to a Messages endpoint with its own kind and all its bytes. */
  lemma PictureArrives(picture: Picture)
    requires picture.mime != "" && ';' !in picture.mime && ',' !in picture.mime
    ensures exists data :: BlocksOfPart(ImagePart(DataUrl(picture))) == [Base64Image(picture.mime, data)] && Decoded(data) == picture.bytes
  {
    hide Encode, Decoded;
    EncodingReadsBack(picture.bytes);
    A.DataParts(DataUrl(picture), picture.mime, Encode(picture.bytes));
  }

  lemma {:induction false} PairsStand(hop: seq<Picture>, i: nat)
    requires i < |hop|
    ensures var parts := FlatMap(PartsOfPicture, hop);
            |parts| == 2 * |hop| && parts[2 * i] == TextPart(hop[i].path) && parts[2 * i + 1] == ImagePart(DataUrl(hop[i]))
  {
    hide DataUrl;
    if |hop| > 1 {
      PairsStand(hop[1..], if i == 0 then 0 else i - 1);
    } else {
      assert FlatMap(PartsOfPicture, hop[1..]) == [];
    }
  }

  /** The hop's line: each picture in call order, its path and then its data URL. */
  lemma LineCarries(hop: seq<Picture>, wording: Wording, i: nat)
    requires i < |hop|
    ensures var line := PictureLine(hop, wording);
            && line.User? && line.content.Parts? && |line.content.parts| == 1 + 2 * |hop|
            && line.content.parts[1 + 2 * i] == TextPart(hop[i].path)
            && line.content.parts[2 + 2 * i] == ImagePart("data:" + hop[i].mime + ";base64," + Encode(hop[i].bytes))
  {
    hide FlatMap, Encode;
    PairsStand(hop, i);
  }

  /** Older pictures go only as long as with them there would be more than twelve, or more than eight million bytes. */
  lemma NoneGoesNeedlessly(pictures: seq<string>, k: nat, hop: seq<Picture>)
    requires Fewest(pictures, k, hop)
    ensures k <= |pictures| && |pictures| - k + |hop| <= 12 && Size(pictures[k..]) + 4 * TotalBytes(hop) <= 32_000_000
    ensures forall j :: 0 <= j < k ==> |pictures| - j + |hop| > 12 || Size(pictures[j..]) + 4 * TotalBytes(hop) > 32_000_000
  {
    hide Size;
    forall j | 0 <= j < k
      ensures |pictures| - j + |hop| > 12 || Size(pictures[j..]) + 4 * TotalBytes(hop) > 32_000_000
    {
      assert !Roomy(pictures, j, hop);
    }
  }

  /** A picture fits a hop exactly when with it there are at most twelve, of at most eight million bytes. */
  lemma FitsExactly(hop: seq<Picture>, next: Picture)
    ensures FitsHop(hop, next) <==> |hop + [next]| <= 12 && TotalBytes(hop + [next]) <= 8_000_000
  {
    assert (hop + [next])[..|hop|] == hop;
  }
}
