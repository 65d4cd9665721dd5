/** Taking a model's thinking out of a reply, of the whole text at once and as it streams. */
module ThinkStrip {
  import opened Wrappers
  import opened Search
  import opened Lists
  import opened JsStrings

  const OPEN: string := "<think>"
  const CLOSE: string := "</think>"

  /** `stripLeadingThink`: a leading block, or everything up to a lone close tag, taken out. */
  function StripLeadingThink(text: string): string {
    var lead := TrimStart(text);
    if OPEN <= lead then
      match Find(lead, CLOSE, 0)
      case None => ""
      case Some(end) => TrimStart(lead[end + |CLOSE|..])
    else
      match Find(text, CLOSE, 0)
      case Some(lone) => if Find(text[..lone], OPEN, 0).None? then TrimStart(text[lone + |CLOSE|..]) else text
      case None => text
  }

  datatype Phase = Start | Inside | After | Outside

  /** The text opens a block; `body` is what follows the opening tag. */
  ghost predicate Opens(text: string, body: string) {
    TrimStart(text) == OPEN + body
  }

  lemma OpensMore(text: string, body: string, more: string)
    requires Opens(text, body)
    ensures Opens(text + more, body + more)
  {
    TrimConcat(text, more);
    assert (OPEN + body) + more == OPEN + (body + more);
  }

  lemma NoCloseInOpen(body: string, q: nat)
    requires q < |OPEN|
    ensures !OccursAt(OPEN + body, CLOSE, q)
  {
    var lead := OPEN + body;
    if q + |CLOSE| <= |lead| {
      assert lead[q..q + |CLOSE|][0] == OPEN[q] && lead[q..q + |CLOSE|][1] == lead[q + 1];
    }
  }

  /** No close tag begins inside the opening tag. */
  lemma CloseIsInBody(body: string)
    ensures Find(body, CLOSE, 0).None? ==> Find(OPEN + body, CLOSE, 0).None?
    ensures Find(body, CLOSE, 0).Some? ==> Find(OPEN + body, CLOSE, 0) == Some(|OPEN| + Find(body, CLOSE, 0).value)
  {
    hide Find, OccursAt;
    var lead := OPEN + body;
    forall q: nat | q < |OPEN|
      ensures !OccursAt(lead, CLOSE, q)
    {
      NoCloseInOpen(body, q);
    }
    forall q: nat | q >= |OPEN|
      ensures OccursAt(lead, CLOSE, q) <==> OccursAt(body, CLOSE, q - |OPEN|)
    {
      OccursInData(OPEN, body, CLOSE, q);
    }
    var f, g := Find(lead, CLOSE, 0), Find(body, CLOSE, 0);
    if g.Some? { assert OccursAt(lead, CLOSE, |OPEN| + g.value); }
    if f.Some? { assert f.value >= |OPEN|; }
  }

  /** A close tag found first stays first. */
  lemma FoundStays(body: string, more: string, end: nat)
    requires Find(body, CLOSE, 0) == Some(end)
    ensures Find(body + more, CLOSE, 0) == Some(end)
  {
    forall q: nat | q <= end
      ensures OccursAt(body + more, CLOSE, q) <==> OccursAt(body, CLOSE, q)
    {
      assert (body + more)[q..q + |CLOSE|] == body[q..q + |CLOSE|];
    }
  }

  /**
   * The stream may be cut anywhere, inside a tag and between the blanks around it, so the filter
   * holds text back while the start could still turn out to be an opening tag, and while a block is
   * open.
   */
  class ThinkStrip {
    var phase: Phase
    var pending: string
    var sawOpen: bool
    /** The text so far, and what was handed on of it. */
    ghost var fed: string
    ghost var sent: string

    ghost predicate Valid()
      reads this
    {
      match phase
      case Start => !sawOpen && pending == fed && sent == "" && TrimStart(fed) <= OPEN
      case Inside => sawOpen && sent == "" && pending != "" && Opens(fed, pending) && Find(pending, CLOSE, 0).None?
      case After => sawOpen && sent == "" && Closed(fed, "")
      case Outside => if sawOpen then sent != "" && Closed(fed, sent) else sent == fed && !NearOpen(fed)
    }

    constructor ()
      ensures Valid() && fed == "" && sent == ""
    {
      phase, pending, sawOpen := Start, "", false;
      fed, sent := "", "";
    }

    /** `feed`: the part of the next piece that is the reply. */
    method Feed(text: string) returns (out: string)
      requires Valid()
      modifies this
      ensures Valid() && fed == old(fed) + text && sent == old(sent) + out
    {
      hide Find, TrimStart, Closed, NearOpen, Opens;
      ghost var fed0, pending0 := fed, pending;
      fed := fed + text;
      if phase == Outside {
        if sawOpen { ClosedMore(fed0, sent, text); } else { StaysAway(fed0, text); }
        sent := sent + text;
        return text;
      }
      if phase == After {
        out := TrimStart(text);
        ClosedMore(fed0, "", text);
        if out != "" { phase := Outside; }
        assert sent + out == out;
        sent := sent + out;
        return;
      }
      pending := pending + text;
      if phase == Start {
        var lead := TrimStart(pending);
        if |lead| == 0 { return ""; }
        if lead <= OPEN { return ""; }
        if !(OPEN <= lead) {
          phase := Outside;
          out := pending;
          pending := "";
          AwayFromOpen(fed);
          sent := sent + out;
          return;
        }
        sawOpen := true;
        phase := Inside;
        pending := lead[|OPEN|..];
        assert |lead| == |OPEN| ==> lead == OPEN;
        NowOpens(fed, lead);
      } else {
        OpensMore(fed0, pending0, text);
      }
      var end := Find(pending, CLOSE, 0);
      assert pending != "";
      if end.None? {
        assert sent + "" == sent;
        return "";
      }
      FoundInBounds(pending, end.value);
      out := TrimStart(pending[end.value + |CLOSE|..]);
      NowClosed(fed, pending, end.value);
      pending := "";
      phase := if |out| > 0 then Outside else After;
      assert sent + out == out;
      sent := sent + out;
    }

    /** `finish`: the whole reply, once the stream ended. */
    method Finish(content: string) returns (reply: string)
      requires Valid() && content == sent
      ensures TrimStart(fed) != OPEN ==> reply == StripLeadingThink(fed)
      ensures TrimStart(fed) == OPEN ==> reply == fed
    {
      match phase
      case Start =>
        reply := content + pending;
        assert reply == fed;
        if TrimStart(fed) != OPEN { ShortIsKept(fed); }
      case Inside =>
        reply := content;
        CloseIsInBody(pending);
      case After =>
        reply := content;
        ClosedStrips(fed, "");
      case Outside =>
        if !sawOpen {
          reply := StripLeadingThink(content);
        } else {
          reply := content;
          ClosedStrips(fed, sent);
        }
    }
  }

  /** A block opened and closed; `reply` is what comes after it and the blanks behind it. */
  ghost predicate Closed(text: string, reply: string) {
    exists body, end: nat :: Opens(text, body) && Find(body, CLOSE, 0) == Some(end) && end + |CLOSE| <= |body| && reply == TrimStart(body[end + |CLOSE|..])
  }

  /** The text may still turn out to open a block, or does. */
  ghost predicate NearOpen(text: string) {
    TrimStart(text) <= OPEN || OPEN <= TrimStart(text)
  }

  lemma FoundInBounds(body: string, end: nat)
    requires Find(body, CLOSE, 0) == Some(end)
    ensures end + |CLOSE| <= |body|
  {
    assert OccursAt(body, CLOSE, end);
  }

  lemma NowOpens(text: string, lead: string)
    requires lead == TrimStart(text) && OPEN <= lead
    ensures Opens(text, lead[|OPEN|..])
  {
    assert lead == OPEN + lead[|OPEN|..];
  }

  lemma NowClosed(text: string, body: string, end: nat)
    requires Opens(text, body) && Find(body, CLOSE, 0) == Some(end) && end + |CLOSE| <= |body|
    ensures Closed(text, TrimStart(body[end + |CLOSE|..]))
  {
  }

  lemma ClosedMore(text: string, reply: string, more: string)
    requires Closed(text, reply)
    ensures Closed(text + more, if reply == "" then TrimStart(more) else reply + more)
  {
    hide Find, TrimStart, Opens;
    var body, end: nat :| Opens(text, body) && Find(body, CLOSE, 0) == Some(end) && end + |CLOSE| <= |body| && reply == TrimStart(body[end + |CLOSE|..]);
    ClosedMoreAt(text, body, end, more);
  }

  lemma ClosedMoreAt(text: string, body: string, end: nat, more: string)
    requires Opens(text, body) && Find(body, CLOSE, 0) == Some(end) && end + |CLOSE| <= |body|
    ensures var reply := TrimStart(body[end + |CLOSE|..]);
            Closed(text + more, if reply == "" then TrimStart(more) else reply + more)
  {
    hide Find, TrimStart, Opens, Closed;
    OpensMore(text, body, more);
    FoundStays(body, more, end);
    DropConcat(body, more, end + |CLOSE|);
    TrimConcat(body[end + |CLOSE|..], more);
    NowClosed(text + more, body + more, end);
  }

  lemma DropConcat<T>(a: seq<T>, b: seq<T>, k: nat)
    requires k <= |a|
    ensures (a + b)[k..] == a[k..] + b
  {
  }

  lemma ClosedStrips(text: string, reply: string)
    requires Closed(text, reply)
    ensures StripLeadingThink(text) == reply && TrimStart(text) != OPEN
  {
    hide Find, TrimStart;
    var body, end: nat :| Opens(text, body) && Find(body, CLOSE, 0) == Some(end) && end + |CLOSE| <= |body| && reply == TrimStart(body[end + |CLOSE|..]);
    ClosedStripsAt(text, body, end);
  }

  lemma ClosedStripsAt(text: string, body: string, end: nat)
    requires Opens(text, body) && Find(body, CLOSE, 0) == Some(end) && end + |CLOSE| <= |body|
    ensures StripLeadingThink(text) == TrimStart(body[end + |CLOSE|..]) && TrimStart(text) != OPEN
  {
    hide Find, TrimStart;
    CloseIsInBody(body);
    DropMore(OPEN, body, end + |CLOSE|);
    assert |OPEN + body| > |OPEN|;
  }

  lemma DropMore<T>(a: seq<T>, b: seq<T>, k: nat)
    requires k <= |b|
    ensures (a + b)[|a| + k..] == b[k..]
  {
  }

  lemma AwayFromOpen(text: string)
    requires TrimStart(text) != "" && !(TrimStart(text) <= OPEN) && !(OPEN <= TrimStart(text))
    ensures !NearOpen(text)
  {
  }

  lemma StaysAway(text: string, more: string)
    requires !NearOpen(text)
    ensures !NearOpen(text + more)
  {
    TrimConcat(text, more);
    hide TrimStart;
    Prefixes(TrimStart(text), more, OPEN);
  }

  /** Two beginnings of one text are beginnings of one another. */
  lemma Prefixes<T>(a: seq<T>, b: seq<T>, w: seq<T>)
    ensures a + b <= w || w <= a + b ==> a <= w || w <= a
  {
    assert (a + b)[..|a|] == a;
    if w <= a + b && |w| <= |a| { assert w == (a + b)[..|w|] == a[..|w|]; }
  }

  lemma {:induction false} TrimCuts(text: string) returns (blanks: string)
    ensures text == blanks + TrimStart(text) && forall i :: 0 <= i < |blanks| ==> IsSpace(blanks[i])
  {
    if text != "" && IsSpace(text[0]) {
      var rest := TrimCuts(text[1..]);
      blanks := [text[0]] + rest;
    } else {
      blanks := "";
    }
  }

  /** Blanks and a beginning of the opening tag hold no close tag. */
  lemma ShortIsKept(text: string)
    requires TrimStart(text) <= OPEN && TrimStart(text) != OPEN
    ensures StripLeadingThink(text) == text
  {
    var blanks := TrimCuts(text);
    var lead := TrimStart(text);
    forall q: nat
      ensures !OccursAt(text, CLOSE, q)
    {
      if q + |CLOSE| <= |text| {
        assert text[q..q + |CLOSE|][0] == text[q];
        assert |lead| < |CLOSE|;
        assert q < |blanks|;
        assert text[q] == blanks[q];
      }
    }
  }

  /**
   * However a reply comes in pieces, it ends up as the whole text stripped at once would, except
   * when it trims to the opening tag alone: then the stream keeps it and the whole form drops it.
   */
  method StripStream(chunks: seq<string>) returns (reply: string)
    ensures TrimStart(Joined(chunks)) != OPEN ==> reply == StripLeadingThink(Joined(chunks))
    ensures TrimStart(Joined(chunks)) == OPEN ==> reply == Joined(chunks) && StripLeadingThink(Joined(chunks)) == ""
  {
    hide Find, TrimStart, StripLeadingThink;
    var strip := new ThinkStrip();
    var content := "";
    for i := 0 to |chunks|
      invariant strip.Valid() && strip.fed == Joined(chunks[..i]) && strip.sent == content
    {
      JoinedLast(chunks, i);
      var out := strip.Feed(chunks[i]);
      content := content + out;
    }
    assert chunks[..|chunks|] == chunks;
    reply := strip.Finish(content);
    if TrimStart(Joined(chunks)) == OPEN { AloneIsDropped(Joined(chunks)); }
  }

  /** The tag alone: the two forms really differ, since the text is not empty. */
  lemma AloneIsDropped(text: string)
    requires TrimStart(text) == OPEN
    ensures StripLeadingThink(text) == "" && text != ""
  {
    assert OPEN + "" == OPEN;
    CloseIsInBody("");
  }
}
