/** What is left of a reply that carries its thinking, shape by shape. */
module ThinkBlocks {
  import opened Wrappers
  import opened JsStrings
  import opened Search
  import opened ThinkStrip

  /** The tag stands nowhere in the text. */
  ghost predicate Lacks(text: string, tag: string) {
    forall p: nat :: !OccursAt(text, tag, p)
  }

  lemma FoundFirst(text: string, tag: string, p: nat)
    requires OccursAt(text, tag, p) && forall q: nat :: q < p ==> !OccursAt(text, tag, q)
    ensures Find(text, tag, 0) == Some(p)
  {
  }

  lemma NotFound(text: string, tag: string)
    requires Lacks(text, tag)
    ensures Find(text, tag, 0) == None
  {
  }

  /** A close tag behind a text without one is the first. */
  lemma CloseFirst(front: string, rest: string)
    requires Lacks(front, "</think>")
    ensures Find(front + "</think>" + rest, "</think>", 0) == Some(|front|)
    ensures (front + "</think>" + rest)[|front| + 8..] == rest && (front + "</think>" + rest)[..|front|] == front
  {
    var text := front + "</think>" + rest;
    assert text[|front|..|front| + 8] == "</think>";
    forall q: nat | q < |front|
      ensures !OccursAt(text, "</think>", q)
    {
      if OccursAt(text, "</think>", q) { CloseInFront(front, rest, q); }
    }
    FoundFirst(text, "</think>", |front|);
  }

  /** It does not begin in the text before: a tag cannot begin inside another. */
  lemma CloseInFront(front: string, rest: string, q: nat)
    requires q < |front| && OccursAt(front + "</think>" + rest, "</think>", q)
    ensures OccursAt(front, "</think>", q)
  {
    var text := front + "</think>" + rest;
    var found := text[q..q + 8];
    assert text[|front|] == '<' && found[0] == '<' && found[1] == '/';
    if q + 8 <= |front| { assert front[q..q + 8] == found; }
  }

  lemma TrimmedTo(blanks: string, text: string)
    requires IsBlankText(blanks) && (text == "" || !IsSpace(text[0]))
    ensures TrimStart(blanks + text) == text
  {
    TrimBlank(blanks);
    TrimConcat(blanks, text);
  }

  /** Thinking, opened and closed at the front, goes with the blanks behind it; what follows stays. */
  lemma BlockGoes(blanks: string, thought: string, rest: string)
    requires IsBlankText(blanks) && Lacks(thought, "</think>")
    ensures StripLeadingThink(blanks + ("<think>" + (thought + "</think>" + rest))) == TrimStart(rest)
  {
    hide Find, TrimStart, IsBlankText, OccursAt, StripLeadingThink;
    var body := thought + "</think>" + rest;
    TrimmedTo(blanks, "<think>" + body);
    CloseFirst(thought, rest);
    ClosedStripsAt(blanks + ("<think>" + body), body, |thought|);
  }

  /** Thinking that is never closed leaves nothing. */
  lemma OpenBlockGoes(blanks: string, thought: string)
    requires IsBlankText(blanks) && Lacks(thought, "</think>")
    ensures StripLeadingThink(blanks + ("<think>" + thought)) == ""
  {
    hide Find, TrimStart, IsBlankText;
    TrimmedTo(blanks, "<think>" + thought);
    NotFound(thought, "</think>");
    CloseIsInBody(thought);
  }

  /** A close tag alone ends thinking whose opening was not sent: it goes with all before it. */
  lemma LoneCloseGoes(thought: string, rest: string)
    requires Lacks(thought, "</think>") && Lacks(thought, "<think>")
    ensures StripLeadingThink(thought + "</think>" + rest) == TrimStart(rest)
  {
    hide Find, TrimStart, OccursAt;
    var behind := "</think>" + rest;
    assert behind[..8] == "</think>";
    assert thought + "</think>" + rest == thought + behind;
    CloseFirst(thought, rest);
    NotFound(thought, "<think>");
    NotOpened(thought, behind);
  }

  /** No opening tag runs from one text into another that begins with a tag. */
  lemma TagNext(lead: string, rest: string)
    requires 1 <= |lead| < 7 && rest != "" && rest[0] == '<'
    ensures !("<think>" <= lead + rest)
  {
    var tag := "<think>";
    assert tag[1] == 't' && tag[2] == 'h' && tag[3] == 'i' && tag[4] == 'n' && tag[5] == 'k' && tag[6] == '>';
    assert (lead + rest)[|lead|] == '<' && tag[|lead|] != '<';
  }

  lemma TagInText(blanks: string, lead: string, rest: string)
    requires |lead| >= 7 && "<think>" <= lead + rest
    ensures OccursAt(blanks + lead, "<think>", |blanks|)
  {
    assert lead[..7] == (lead + rest)[..7] == "<think>";
    assert (blanks + lead)[|blanks|..|blanks| + 7] == lead[..7];
  }

  lemma NotOpened(thought: string, rest: string)
    requires Lacks(thought, "<think>") && |rest| >= 8 && rest[..8] == "</think>"
    ensures !("<think>" <= TrimStart(thought + rest))
  {
    assert rest[0] == rest[..8][0] == '<' && rest[1] == rest[..8][1] == '/';
    TrimConcat(thought, rest);
    var lead := TrimStart(thought);
    var blanks := TrimCuts(thought);
    if lead == "" {
      assert TrimStart(rest) == rest;
    } else if |lead| < 7 {
      TagNext(lead, rest);
    } else if "<think>" <= lead + rest {
      TagInText(blanks, lead, rest);
    }
  }

  /** A reply that does not begin with thinking and has no close tag, or one only behind an opening tag, stays as it is. */
  lemma OthersStay(text: string)
    requires !("<think>" <= TrimStart(text))
    requires Lacks(text, "</think>") || exists p: nat, q: nat :: OccursAt(text, "<think>", p) && p + 7 <= q && FirstAt(text, "</think>", q)
    ensures StripLeadingThink(text) == text
  {
    hide TrimStart;
    if Lacks(text, "</think>") {
      NotFound(text, "</think>");
    } else {
      var p: nat, q: nat :| OccursAt(text, "<think>", p) && p + 7 <= q && FirstAt(text, "</think>", q);
      FoundFirst(text, "</think>", q);
      assert text[..q][p..p + 7] == text[p..p + 7];
      assert OccursAt(text[..q], "<think>", p);
    }
  }
}
