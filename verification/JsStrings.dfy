/** Strings as JavaScript has them: their white space, and their length in UTF-16 units. */
module JsStrings {
  /** White space and line ends, as `trimStart` and `\\s` have them. */
  predicate IsSpace(c: char) {
    || '\U{9}' <= c <= '\U{D}' || c == ' ' || c == '\U{A0}' || c == '\U{1680}' || '\U{2000}' <= c <= '\U{200A}'
    || c == '\U{2028}' || c == '\U{2029}' || c == '\U{202F}' || c == '\U{205F}' || c == '\U{3000}' || c == '\U{FEFF}'
  }

  /** `!text.trim()` */
  predicate IsBlankText(text: string) {
    forall c :: c in text ==> IsSpace(c)
  }

  function TrimStart(s: string): (r: string)
    ensures r != "" ==> !IsSpace(r[0])
  {
    if s != "" && IsSpace(s[0]) then TrimStart(s[1..]) else s
  }

  function TrimEnd(s: string): (r: string)
    ensures r != "" ==> !IsSpace(r[|r| - 1])
  {
    if s != "" && IsSpace(s[|s| - 1]) then TrimEnd(s[..|s| - 1]) else s
  }

  lemma {:induction false} TrimConcat(a: string, b: string)
    ensures TrimStart(a + b) == if TrimStart(a) == "" then TrimStart(b) else TrimStart(a) + b
  {
    if a == "" {
      assert a + b == b;
    } else if IsSpace(a[0]) {
      assert (a + b)[1..] == a[1..] + b;
      TrimConcat(a[1..], b);
    }
  }

  lemma {:induction false} TrimBlank(blanks: string)
    requires IsBlankText(blanks)
    ensures TrimStart(blanks) == ""
  {
    if blanks != "" { TrimBlank(blanks[1..]); }
  }

  lemma {:induction false} TrimTail(s: string, blanks: string)
    requires s != "" && !IsSpace(s[|s| - 1]) && IsBlankText(blanks)
    ensures TrimEnd(s + blanks) == s
  {
    if blanks == "" {
      assert s + blanks == s;
    } else {
      assert (s + blanks)[..|s + blanks| - 1] == s + blanks[..|blanks| - 1];
      TrimTail(s, blanks[..|blanks| - 1]);
    }
  }

  /** Blanks around a text are trimmed, and nothing of it. */
  lemma TrimAround(before: string, s: string, after: string)
    requires IsBlankText(before) && IsBlankText(after) && s != "" && !IsSpace(s[0]) && !IsSpace(s[|s| - 1])
    ensures TrimEnd(TrimStart(before + s + after)) == s
  {
    TrimBlank(before);
    TrimConcat(before, s + after);
    assert before + s + after == before + (s + after);
    assert TrimStart(s + after) == s + after;
    TrimTail(s, after);
  }

  /** The length of a string as JavaScript counts it, in UTF-16 units. */
  function Units(s: string): nat {
    if s == "" then 0 else Units(s[..|s| - 1]) + Width(s[|s| - 1])
  }

  function Width(c: char): nat {
    if c as int >= 0x1_0000 then 2 else 1
  }

  lemma UnitsGrow(s: string, ch: char)
    ensures Units(s + [ch]) == Units(s) + Width(ch)
  {
    assert (s + [ch])[..|s|] == s;
  }

  lemma {:induction false} UnitsAscii(s: string)
    requires forall i :: 0 <= i < |s| ==> s[i] as int < 0x1_0000
    ensures Units(s) == |s|
  {
    if s != "" { UnitsAscii(s[..|s| - 1]); }
  }
}
