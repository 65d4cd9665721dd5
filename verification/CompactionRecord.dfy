/** What the record for a summary shows of each line, and what a plan keeps, in plain figures. */
module CompactionRecord {
  import opened Wrappers
  import opened JsStrings
  import opened Search
  import opened Anthropic
  import opened Compaction

  // ---- What stays word for word ----

  /**
   * With a plan, a hop stays word for word exactly when it and all after it take no more than a
   * fifth of what fits and leave, with the rest and four thousand tokens of summary, half of it free.
   */
  lemma KeptExactly(loop: seq<Message>, size: Size, i: nat)
    requires i < HopsEnd(loop) && loop[i].Assistant?
    ensures var bytes := LoopBytes(loop[i..HopsEnd(loop)]) as real;
            var summary := 4_000.0 * (match size.bytesPerToken case None => 4.0 case Some(known) => known);
            i >= TailStart(loop, size.TailBytes()) <==>
            bytes == 0.0 || (bytes <= 0.2 * size.capacity && size.fixed + summary + bytes <= 0.5 * size.capacity)
  {
    hide LoopBytes, HopsEnd;
    var start, end := TailStart(loop, size.TailBytes()), HopsEnd(loop);
    if i >= start {
      LongerIsBigger(loop, start, i, end);
      assert FitsTail(loop, start, end, size.TailBytes());
    } else {
      assert !FitsTail(loop, i, end, size.TailBytes());
    }
  }

  /** A plan needs a quarter of what fits left beside the rest and the summary, and eight thousand bytes to summarize. */
  lemma PlanExactly(loop: seq<Message>, size: Size)
    ensures HasPlan(loop, size) <==>
            && size.fixed + 4_000.0 * (match size.bytesPerToken case None => 4.0 case Some(known) => known) < 0.75 * size.capacity
            && LoopBytes(loop[..TailStart(loop, size.TailBytes())]) >= 8_000
  {
    hide LoopBytes, TailStart;
  }

  /** What fits is what went through, or what the window is read at where both are known and that is more. */
  lemma CapacityMeans(window: real, bytesPerToken: real, fitBytes: real)
    ensures var capacity := CapacityBytes(window, bytesPerToken, fitBytes);
            && capacity >= fitBytes && (capacity == fitBytes || capacity == window * bytesPerToken)
            && (window != 0.0 && bytesPerToken != 0.0 ==> capacity >= window * bytesPerToken)
            && (window == 0.0 || bytesPerToken == 0.0 ==> capacity == fitBytes)
  {
  }

  /** A hop comes near a known window from three quarters of it on. */
  lemma NearMeans(bytes: real, window: real, bytesPerToken: real)
    requires window >= 0.0 && bytesPerToken >= 0.0
    ensures NearWindow(bytes, window, bytesPerToken) <==> window > 0.0 && bytesPerToken > 0.0 && bytes >= 0.75 * window * bytesPerToken
  {
    if window > 0.0 && bytesPerToken > 0.0 { PerToken(bytes, window * COMPACT_NEAR_WINDOW, bytesPerToken); }
  }

  // ---- What the record shows ----

  lemma HasWithin<T>(before: seq<T>, s: seq<T>, after: seq<T>, needle: seq<T>)
    requires Has(s, needle)
    ensures Has(before + s + after, needle)
  {
    var p: nat :| OccursAt(s, needle, p);
    assert (before + s + after)[|before| + p..|before| + p + |needle|] == s[p..p + |needle|];
    assert OccursAt(before + s + after, needle, |before| + p);
  }

  lemma HasItself<T>(s: seq<T>)
    ensures Has(s, s)
  {
    assert s[0..0 + |s|] == s;
    assert OccursAt(s, s, 0);
  }

  /** Two lists joined are joined by one separator. */
  lemma {:induction false} JoinConcat(a: seq<string>, b: seq<string>, separator: string)
    requires a != [] && b != []
    ensures Join(a + b, separator) == Join(a, separator) + separator + Join(b, separator)
  {
    assert (a + b)[1..] == a[1..] + b;
    if |a| == 1 {
      assert a[1..] + b == b;
    } else {
      JoinConcat(a[1..], b, separator);
    }
  }

  lemma {:induction false} JoinHas(texts: seq<string>, separator: string, k: nat)
    requires k < |texts|
    ensures Has(Join(texts, separator), texts[k])
  {
    if |texts| == 1 {
      HasItself(texts[0]);
    } else {
      var rest := Join(texts[1..], separator);
      if k == 0 {
        HasItself(texts[0]);
        HasWithin([], texts[0], separator + rest, texts[0]);
        assert [] + texts[0] + (separator + rest) == Join(texts, separator);
      } else {
        JoinHas(texts[1..], separator, k - 1);
        HasWithin(texts[0] + separator, rest, [], texts[k]);
        assert texts[0] + separator + rest + [] == Join(texts, separator);
      }
    }
  }

  /** The text under its label: whole within the limit, else its two ends about the word on how much is gone. */
  ghost predicate Shown(record: string, heading: string, text: string, limit: nat, wording: Wording) {
    if |text| <= limit then Has(record, "\U{3010}" + heading + "\U{3011}\n" + text)
    else exists head, cut, tail :: Cut(text, head, cut, tail, limit) && Has(record, "\U{3010}" + heading + "\U{3011}\n" + (head + wording.gap(|cut|) + tail))
  }

  ghost predicate Cut(text: string, head: string, cut: string, tail: string, limit: nat) {
    text == head + cut + tail && |head| + |tail| == limit && 2 * |tail| <= |head| <= 2 * |tail| + 2
  }

  /** The code points each kind keeps, tier by tier. */
  function Limit(kind: EntryKind, t: nat): nat
    requires t < 4
  {
    match kind
    case Said => [6_000, 3_000, 1_500, 600][t]
    case Called => [2_000, 800, 300, 120][t]
    case Result => [8_000, 2_000, 600, 200][t]
    case Note => [3_000, 1_500, 800, 400][t]
    case Earlier => 24_000
  }

  /** An entry's rendering shows it within its limit. */
  lemma RenderShows(record: string, entry: Entry, t: nat, wording: Wording)
    requires t < |CLIP_TIERS| && Has(record, RenderOne(entry, CLIP_TIERS[t], wording))
    ensures t < 4 && Shown(record, entry.heading, entry.text, Limit(entry.kind, t), wording)
  {
    var limit := Limit(entry.kind, t);
    assert RenderOne(entry, CLIP_TIERS[t], wording) == "\U{3010}" + entry.heading + "\U{3011}\n" + Clipped(entry.text, limit, wording);
    hide RenderOne, Has, Clipped, CLIP_TIERS;
    if |entry.text| <= limit {
      ShortStays(entry.text, limit, wording);
    } else {
      var head, cut, tail := ClippedKeeps(entry.text, limit, wording);
      assert Cut(entry.text, head, cut, tail, limit);
    }
  }

  lemma ShortStays(text: string, limit: nat, wording: Wording)
    requires |text| <= limit
    ensures Clipped(text, limit, wording) == text
  {
  }

  lemma EntryShown(entries: seq<Entry>, k: nat, t: nat, wording: Wording)
    requires k < |entries| && t < |CLIP_TIERS|
    ensures t < 4 && Shown(Whole(entries, t, wording), entries[k].heading, entries[k].text, Limit(entries[k].kind, t), wording)
  {
    hide RenderOne, Join, Shown, CLIP_TIERS;
    JoinHas(Render(entries, CLIP_TIERS[t], wording), "\n\n", k);
    RenderShows(Whole(entries, t, wording), entries[k], t, wording);
  }

  lemma {:induction false} LineIsAmong(old': seq<Message>, n: nat, i: nat, earlier: Option<nat>, wording: Wording, entry: Entry)
    requires i < n <= |old'| && entry in EntriesOfLine(old', i, earlier, wording)
    ensures entry in Entries(old', n, earlier, wording)
  {
    hide EntriesOfLine;
    if i < n - 1 { LineIsAmong(old', n - 1, i, earlier, wording, entry); }
  }

  /** Earlier lines come first: what is written of them begins what is written of more. */
  lemma {:induction false} LinesInOrder(old': seq<Message>, n: nat, m: nat, earlier: Option<nat>, wording: Wording)
    requires n <= m <= |old'|
    ensures Entries(old', n, earlier, wording) <= Entries(old', m, earlier, wording)
    decreases m
  {
    hide EntriesOfLine;
    if n < m { LinesInOrder(old', n, m - 1, earlier, wording); }
  }

  /** What a line's text holds: the text itself, or every text among its parts, and a word for each picture. */
  lemma TextHolds(content: Content, picture: string)
    ensures content.Plain? ==> TextOf(content, picture) == content.text
    ensures content.Parts? ==> forall j :: 0 <= j < |content.parts| ==>
              Has(TextOf(content, picture), if content.parts[j].TextPart? then content.parts[j].text else picture)
  {
    hide Join, Has;
    if content.Parts? {
      forall j | 0 <= j < |content.parts|
        ensures Has(TextOf(content, picture), if content.parts[j].TextPart? then content.parts[j].text else picture)
      {
        JoinHas(Compaction.TextsOf(content.parts, picture), "\n", j);
      }
    }
  }

  /** What the record must show of a line. */
  ghost predicate LineShown(record: string, m: Message, text: string, t: nat, wording: Wording)
    requires t < 4
  {
    match m
    case Assistant(_, calls, _) =>
      && (!IsBlankText(text) ==> Shown(record, wording.said, text, Limit(Said, t), wording))
      && (forall c :: 0 <= c < |calls| ==> Shown(record, wording.call(calls[c].name), calls[c].arguments, Limit(Called, t), wording))
    case Tool(_, _) => exists name :: Shown(record, wording.result(name), text, Limit(Result, t), wording)
    case _ => Shown(record, wording.note, text, Limit(Note, t), wording)
  }

  /**
   * A record that is written whole shows every line of the old part: what the Bot said, each call
   * with its arguments, each result and each line it heard, under its label and within its limit.
   */
  lemma LineIsShown(old': seq<Message>, i: nat, earlier: Option<nat>, t: nat, wording: Wording)
    requires i < |old'| && t < |CLIP_TIERS|
    ensures t < 4
    ensures var record, text := Whole(Entries(old', |old'|, earlier, wording), t, wording), TextOf(old'[i].content, wording.picture);
            if earlier == Some(i) then Shown(record, wording.earlier, text, Limit(Earlier, t), wording)
            else LineShown(record, old'[i], text, t, wording)
  {
    var entries := Entries(old', |old'|, earlier, wording);
    var record := Whole(entries, t, wording);
    assert t < 4;
    forall entry | entry in EntriesOfLine(old', i, earlier, wording)
      ensures Shown(record, entry.heading, entry.text, Limit(entry.kind, t), wording)
    {
      hide Shown, Entries, EntriesOfLine, Whole;
      LineIsAmong(old', |old'|, i, earlier, wording, entry);
      var k :| 0 <= k < |entries| && entries[k] == entry;
      EntryShown(entries, k, t, wording);
    }
    hide Shown, Entries, Whole, TextOf, IsBlankText, CallsBefore, LastName;
    EntriesAre(old', i, earlier, wording);
  }

  /** The entries a line leaves. */
  lemma EntriesAre(old': seq<Message>, i: nat, earlier: Option<nat>, wording: Wording)
    requires i < |old'|
    ensures var es, text := EntriesOfLine(old', i, earlier, wording), TextOf(old'[i].content, wording.picture);
            if earlier == Some(i) then Entry(Earlier, wording.earlier, text) in es
            else match old'[i]
                 case Assistant(_, calls, _) =>
                   && (!IsBlankText(text) ==> Entry(Said, wording.said, text) in es)
                   && (forall c :: 0 <= c < |calls| ==> Entry(Called, wording.call(calls[c].name), calls[c].arguments) in es)
                 case Tool(_, _) => exists name :: Entry(Result, wording.result(name), text) in es
                 case _ => Entry(Note, wording.note, text) in es
  {
    hide TextOf, IsBlankText, CallsBefore, LastName;
    var es := EntriesOfLine(old', i, earlier, wording);
    if old'[i].Assistant? && earlier != Some(i) {
      var written := CallEntries(old'[i].calls, wording);
      forall c | 0 <= c < |old'[i].calls|
        ensures Entry(Called, wording.call(old'[i].calls[c].name), old'[i].calls[c].arguments) in es
      {
        assert written[c] in written;
      }
    }
  }

  /** And one that leaves entries out still shows an earlier summary and each entry it kept. */
  lemma KeptIsShown(entries: seq<Entry>, from: nat, k: nat, wording: Wording)
    requires KeepFirst(entries) <= from <= |entries| && k < |entries| && (k < KeepFirst(entries) || k >= from)
    ensures var record := Kept(Render(entries, CLIP_TIERS[|CLIP_TIERS| - 1], wording), KeepFirst(entries), from, wording);
            Shown(record, entries[k].heading, entries[k].text, Limit(entries[k].kind, 3), wording)
  {
    var last := |CLIP_TIERS| - 1;
    hide RenderOne, Join, Shown, Has;
    var texts, first := Render(entries, CLIP_TIERS[last], wording), KeepFirst(entries);
    var gap := if from > first then [wording.omitted(from - first)] else [];
    var kept := texts[..first] + gap + texts[from..];
    var at := if k < first then k else first + |gap| + (k - from);
    assert kept[at] == texts[k];
    JoinHas(kept, "\n\n", at);
    RenderShows(Kept(texts, first, from, wording), entries[k], last, wording);
  }

  /** An earlier summary is never among what is left out, and how many entries are is said. */
  lemma OmissionIsSaid(entries: seq<Entry>, from: nat, wording: Wording)
    requires KeepFirst(entries) <= from <= |entries|
    ensures var first := if entries != [] && entries[0].kind == Earlier then 1 else 0;
            var record := Kept(Render(entries, CLIP_TIERS[|CLIP_TIERS| - 1], wording), KeepFirst(entries), from, wording);
            && (first == 1 ==> Shown(record, entries[0].heading, entries[0].text, 24_000, wording))
            && (from > first ==> Has(record, wording.omitted(from - first)))
  {
    var first := KeepFirst(entries);
    if first == 1 { KeptIsShown(entries, from, 0, wording); }
    hide RenderOne, Join, Shown, Has;
    var texts := Render(entries, CLIP_TIERS[|CLIP_TIERS| - 1], wording);
    if from > first {
      var kept := texts[..first] + [wording.omitted(from - first)] + texts[from..];
      assert kept[first] == wording.omitted(from - first);
      JoinHas(kept, "\n\n", first);
    }
  }

  // ---- Bytes ----

  /** A character's octets by section 3 of RFC 3629. */
  function Octets(c: char): seq<nat> {
    var n := c as int;
    if n <= 0x7F then [n]
    else if n <= 0x7FF then [0xC0 + n / 0x40, 0x80 + n % 0x40]
    else if n <= 0xFFFF then [0xE0 + n / 0x1000, 0x80 + n / 0x40 % 0x40, 0x80 + n % 0x40]
    else [0xF0 + n / 0x4_0000, 0x80 + n / 0x1000 % 0x40, 0x80 + n / 0x40 % 0x40, 0x80 + n % 0x40]
  }

  function Encoded(s: string): seq<nat> {
    if s == "" then [] else Encoded(s[..|s| - 1]) + Octets(s[|s| - 1])
  }

  /** The size of a text is the number of octets it is sent in, and they are octets. */
  lemma {:induction false} Utf8IsEncoded(s: string)
    ensures Utf8(s) == |Encoded(s)| && forall octet :: octet in Encoded(s) ==> octet < 256
  {
    if s != "" { Utf8IsEncoded(s[..|s| - 1]); }
  }
}
