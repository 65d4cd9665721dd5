/** What a claim takes up, when it answers, and what becomes of its lease. */
module NotificationLaws {
  import opened Wrappers
  import opened Lists
  import opened Notifications
  import opened NotificationRuns

  // ---- What may be shown ----

  /** Its category is on, and it is no reply or routine result of a muted session. */
  predicate Allowed(n: Note, env: Env) {
    && n.kind in env.categories
    && !((n.kind == Reply || n.kind == RoutineResult) && n.session.Some? && n.session.value in env.muted)
  }

  /** Not on screen, and out of the batching window. */
  predicate Settled(n: Note, env: Env) {
    && !(n.session.Some? && n.session.value in env.foreground)
    && env.now - n.createdAt >= 2_000
  }

  predicate Timely(n: Note, env: Env) {
    n.action != NoAction || env.now - n.createdAt <= 120_000
  }

  /** The claim looks back at what was planned before, from the oldest open and unread notification on. */
  ghost predicate LooksBack(s: State, env: Env, ordinal: nat) {
    if (s.armed && s.ceiling.None?) || (s.lastQuiet == Some(true) && !env.quiet) then
      exists o :: o in s.notes && o.action == Open && !o.read && o.ordinal <= ordinal
    else
      s.armed && s.floor.Some? && s.floor.value.At? && s.floor.value.ordinal <= ordinal
  }

  ghost predicate Looked(s: State, env: Env, n: Note) {
    && n in s.notes && (!n.read || n.action == Open)
    && (n.ordinal > s.device.planned || LooksBack(s, env, n.ordinal))
  }

  /** Whatever held it before was suppressed, or came to nothing and it is looked back at, open and unread. */
  ghost predicate Unsent(s: State, env: Env, n: Note) {
    forall d :: d in s.deliveries && n.ordinal in d.items ==>
      || d.state == Suppressed
      || (d.state in {Failed, Expired, Unknown} && n.action == Open && !n.read && n.ordinal <= s.device.planned && LooksBack(s, env, n.ordinal))
  }

  ghost predicate Takeable(s: State, env: Env, n: Note) {
    Allowed(n, env) && Settled(n, env) && Timely(n, env) && Unsent(s, env, n)
  }

  /** What is looked at before it. */
  ghost function Ahead(s: State, env: Env, n: Note): set<Note> {
    set m | m in s.notes && Looked(s, env, m) && m.ordinal < n.ordinal
  }

  /** Nothing ahead of it is too fresh or on screen, and the window reaches it. */
  ghost predicate Reached(s: State, env: Env, n: Note) {
    && Looked(s, env, n)
    && |Ahead(s, env, n)| < 200
    && forall m :: m in Ahead(s, env, n) && Allowed(m, env) ==> Settled(m, env)
  }

  predicate SlotFree(dev: Device, now: int) {
    dev.lastAttempt.None? || dev.lastAttempt.value == 0 || now >= dev.lastAttempt.value + 30_000
  }

  ghost predicate NothingLive(s: State) {
    forall d :: d in s.deliveries ==> d.state !in {Pending, Claimed, RetryWait}
  }

  /** A claim may form a batch. */
  ghost predicate MayBatch(s: State, env: Env) {
    s.device.enabled && env.granted && !env.quiet && NothingLive(s) && SlotFree(s.device, env.now)
  }

  // ---- The scan against these ----

  ghost function Ranged(s: State, env: Env): State {
    SetRecoveryRange(NoteQuiet(s, env.quiet))
  }

  lemma {:induction false} OldestIsLeast(notes: seq<Note>, ordinal: nat)
    ensures var oldest := OldestOpen(notes);
            (oldest.At? && oldest.ordinal <= ordinal) <==> exists o :: o in notes && o.action == Open && !o.read && o.ordinal <= ordinal
  {
    if notes != [] {
      OldestIsLeast(notes[1..], ordinal);
      assert notes == [notes[0]] + notes[1..];
      var rest, first := OldestOpen(notes[1..]), notes[0];
      if rest.At? && rest.ordinal <= ordinal {
        var o :| o in notes[1..] && o.action == Open && !o.read && o.ordinal <= ordinal;
        assert o in notes;
      }
    }
  }

  lemma ScanRange(s: State, env: Env, ordinal: nat)
    requires Inv(s) && !env.quiet && 1 <= ordinal
    ensures ScanFrom(Ranged(s, env)) <= ordinal <==> ordinal > s.device.planned || LooksBack(s, env, ordinal)
    ensures AllowRecovery(Ranged(s, env), ordinal) <==> ordinal <= s.device.planned && LooksBack(s, env, ordinal)
  {
    OldestIsLeast(s.notes, ordinal);
  }

  lemma VerdictMeans(s: State, env: Env, n: Note)
    requires Inv(s) && !env.quiet && n in s.notes
    ensures var verdict := Classify(s.deliveries, n, env, AllowRecovery(Ranged(s, env), n.ordinal));
            (verdict == Defer <==> Allowed(n, env) && !Settled(n, env)) && (verdict == Ready <==> Takeable(s, env, n))
  {
    assert n.ordinal >= 1;
    ScanRange(s, env, n.ordinal);
    hide LooksBack, AllowRecovery, Ranged;
    UnsentMeans(s, env, n);
  }

  lemma UnsentMeans(s: State, env: Env, n: Note)
    ensures var d, looked := DispositionOf(s.deliveries, n.ordinal), n.ordinal <= s.device.planned && LooksBack(s, env, n.ordinal);
            Unsent(s, env, n) <==> !d.live && !d.accepted && (d.terminalAlert ==> looked && n.action == Open && !n.read)
  {
    hide LooksBack;
    var ds := s.deliveries;
    if Unsent(s, env, n) {
      forall i | 0 <= i < |ds| && n.ordinal in ds[i].items
        ensures ds[i].state == Suppressed || ds[i].state in {Failed, Expired, Unknown}
      {
        assert ds[i] in ds;
      }
    }
    if DispositionOf(ds, n.ordinal).terminalAlert {
      var i :| 0 <= i < |ds| && n.ordinal in ds[i].items && ds[i].state in {Failed, Expired, Unknown};
      assert ds[i] in ds;
    }
  }

  // ---- How far a scan gets ----

  lemma {:induction false} ScanGrows(s: State, env: Env, rows: seq<Note>, acc: Scan)
    ensures acc.candidates <= ScanRows(s, env, rows, acc).candidates
    decreases |rows|
  {
    hide Classify, AllowRecovery;
    if rows != [] {
      var row := rows[0];
      var allow := AllowRecovery(s, row.ordinal);
      var next := acc.(includedRecovery := acc.includedRecovery || allow);
      ScanGrows(s, env, rows[1..], acc.(watermark := row.ordinal));
      ScanGrows(s, env, rows[1..], next.(candidates := acc.candidates + [row]));
      ScanGrows(s, env, rows[1..], next);
    }
  }

  ghost function VerdictAt(s: State, env: Env, n: Note): Verdict {
    Classify(s.deliveries, n, env, AllowRecovery(s, n.ordinal))
  }

  /** A ready row that nothing before it holds up is reached, within the cap with room left. */
  lemma {:induction false} ScanReaches(s: State, env: Env, window: seq<Note>, k: nat, at: nat, acc: Scan)
    requires k <= at < |window| && |acc.candidates| <= k
    requires forall j :: k <= j < at ==> VerdictAt(s, env, window[j]) != Defer
    requires VerdictAt(s, env, window[at]) == Ready
    ensures ScanRows(s, env, window[k..], acc).candidates != []
    ensures at < 100 ==> window[at] in ScanRows(s, env, window[k..], acc).candidates
    decreases at - k
  {
    hide Classify, AllowRecovery;
    var row := window[k];
    var allow := AllowRecovery(s, row.ordinal);
    assert window[k..][1..] == window[k + 1..];
    var next := acc.(includedRecovery := acc.includedRecovery || allow);
    if VerdictAt(s, env, row) == Skip {
      ScanReaches(s, env, window, k + 1, at, acc.(watermark := row.ordinal));
    } else if |acc.candidates| < BATCH_ITEM_LIMIT {
      var more := next.(candidates := acc.candidates + [row]);
      ScanGrows(s, env, window[k + 1..], more);
      assert row in more.candidates;
      if k < at { ScanReaches(s, env, window, k + 1, at, more); }
    } else {
      ScanGrows(s, env, window[k + 1..], next);
    }
  }

  /** What a scan finds first is ready, and nothing before it held it up. */
  lemma {:induction false} ScanFinds(s: State, env: Env, window: seq<Note>, k: nat, acc: Scan) returns (at: nat)
    requires k <= |window| && acc.candidates == [] && ScanRows(s, env, window[k..], acc).candidates != []
    ensures k <= at < |window| && VerdictAt(s, env, window[at]) == Ready
    ensures forall j :: k <= j < at ==> VerdictAt(s, env, window[j]) != Defer
    decreases |window| - k
  {
    hide Classify, AllowRecovery;
    var row := window[k];
    assert window[k..][1..] == window[k + 1..];
    at := k;
    if VerdictAt(s, env, row) == Skip { at := ScanFinds(s, env, window, k + 1, acc.(watermark := row.ordinal)); }
  }

  /** What is looked at stands in the scan at the place that counts what is ahead of it. */
  lemma PlaceInScan(s: State, env: Env, n: Note) returns (at: nat)
    requires Inv(s) && !env.quiet && Looked(s, env, n)
    ensures var all := Attention(s.notes, ScanFrom(Ranged(s, env)));
            at < |all| && all[at] == n && at == |Ahead(s, env, n)| && forall j :: 0 <= j < at ==> all[j] in Ahead(s, env, n)
  {
    var all := Attention(s.notes, ScanFrom(Ranged(s, env)));
    AttentionSorted(s.notes, ScanFrom(Ranged(s, env)));
    ScannedIsLooked(s, env);
    hide LooksBack, Ranged, ScanFrom, Attention, Inv;
    assert n in all;
    at :| at < |all| && all[at] == n;
    assert Distinct(all[..at]);
    DistinctCount(all[..at]);
    forall m
      ensures m in all[..at] <==> m in Ahead(s, env, n)
    {
      BeforeIsLess(all, at, m);
      assert m in all <==> Looked(s, env, m);
    }
    assert Elements(all[..at]) == Ahead(s, env, n);
    forall j | 0 <= j < at
      ensures all[j] in Ahead(s, env, n)
    {
      assert all[..at][j] == all[j];
    }
  }

  lemma BeforeIsLess(all: seq<Note>, at: nat, m: Note)
    requires Sorted(all) && at < |all|
    ensures m in all[..at] <==> m in all && m.ordinal < all[at].ordinal
  {
    if m in all && m.ordinal < all[at].ordinal {
      var j :| 0 <= j < |all| && all[j] == m;
      assert j < at;
      assert all[..at][j] == m;
    }
    if m in all[..at] {
      var j :| 0 <= j < at && all[..at][j] == m;
      assert all[j] == m;
    }
  }

  lemma ScannedIsLooked(s: State, env: Env)
    requires Inv(s) && !env.quiet
    ensures forall m :: m in Attention(s.notes, ScanFrom(Ranged(s, env))) <==> Looked(s, env, m)
  {
    forall m
      ensures m in Attention(s.notes, ScanFrom(Ranged(s, env))) <==> Looked(s, env, m)
    {
      if m in s.notes {
        assert m.ordinal >= 1;
        ScanRange(s, env, m.ordinal);
      }
    }
  }

  // ---- The batch of a claim ----

  /** The claim added a delivery, and this is one of its notifications. */
  predicate InNewBatch(s: State, s': State, ordinal: nat) {
    |s'.deliveries| == |s.deliveries| + 1 && ordinal in s'.deliveries[|s.deliveries|].items
  }

  lemma LiveIsFirst(s: State)
    ensures NothingLive(s) <==> FirstLive(s.deliveries, 0).None?
  {
    if FirstLive(s.deliveries, 0).None? {
      forall d | d in s.deliveries
        ensures !IsLive(d.state)
      {
        var i :| 0 <= i < |s.deliveries| && s.deliveries[i] == d;
      }
    } else {
      assert s.deliveries[FirstLive(s.deliveries, 0).value] in s.deliveries;
    }
  }

  lemma RangedSame(s: State, env: Env)
    requires Inv(s)
    ensures var r := Ranged(s, env);
            Inv(r) && r.notes == s.notes && r.deliveries == s.deliveries && r.device == s.device && r.minted == s.minted
  {
    SetRangeKeeps(s, env.quiet);
  }

  /** Only a claim that may form a batch adds a delivery, and then it is the scan's. */
  lemma BatchIsScanned(s: State, env: Env)
    requires Inv(s)
    ensures MayBatch(s, env) ==> Claim(s, env) == FormBatch(Ranged(s, env), env)
    ensures |Claim(s, env).0.deliveries| != |s.deliveries| ==> MayBatch(s, env)
  {
    LiveIsFirst(s);
    hide FormBatch, NothingLive;
    if FirstLive(s.deliveries, 0).Some? {
      assert RowOk(s, s.deliveries[FirstLive(s.deliveries, 0).value]);
    }
  }

  lemma CandidatesLooked(s: State, env: Env)
    requires Inv(s) && !env.quiet
    ensures forall c :: c in ScanWindow(Ranged(s, env), env).candidates ==> Looked(s, env, c) && Takeable(s, env, c)
  {
    RangedSame(s, env);
    BatchItems(Ranged(s, env), env);
    ScannedIsLooked(s, env);
    var window, end := WindowScanned(Ranged(s, env), env);
    forall c | c in ScanWindow(Ranged(s, env), env).candidates
      ensures Looked(s, env, c) && Takeable(s, env, c)
    {
      hide Classify, LooksBack, AllowRecovery, Takeable;
      assert c in window[..end];
      assert c in Attention(s.notes, ScanFrom(Ranged(s, env)));
      VerdictMeans(s, env, c);
    }
  }

  /**
   * Whatever a claim puts into a batch may be shown: it wants attention, is allowed, settled and
   * timely, and nothing that holds it is under way or was accepted.
   */
  lemma BatchIsTakeable(s: State, env: Env, ordinal: nat) returns (n: Note)
    requires Inv(s) && InNewBatch(s, Claim(s, env).0, ordinal)
    ensures n.ordinal == ordinal && Looked(s, env, n) && Takeable(s, env, n)
    ensures MayBatch(s, env) && |Claim(s, env).0.deliveries[|s.deliveries|].items| <= 100
  {
    BatchIsScanned(s, env);
    CandidatesLooked(s, env);
    RangedSame(s, env);
    BatchItems(Ranged(s, env), env);
    var scan := ScanWindow(Ranged(s, env), env);
    hide ScanWindow, Looked, Takeable, Target;
    assert ordinal in Ordinals(scan.candidates);
    n :| n in scan.candidates && n.ordinal == ordinal;
  }

  lemma SameNote(s: State, a: Note, b: Note)
    requires Sorted(s.notes) && a in s.notes && b in s.notes && a.ordinal == b.ordinal
    ensures a == b
  {
  }

  /** Past the planned ordinal nothing was ever attached. */
  lemma NewIsUnsent(s: State, env: Env, n: Note)
    requires Inv(s) && n.ordinal > s.device.planned
    ensures Unsent(s, env, n)
  {
    forall d | d in s.deliveries
      ensures n.ordinal !in d.items
    {
      var i :| 0 <= i < |s.deliveries| && s.deliveries[i] == d;
      assert RowOk(s, s.deliveries[i]);
    }
  }

  /**
   * Of the notifications wanting attention that the planned ordinal moves past, the batch holds
   * exactly those allowed and timely; none of them was too fresh or on screen.
   */
  lemma BatchExactly(s: State, env: Env, n: Note)
    requires Inv(s) && n in s.notes && (!n.read || n.action == Open)
    requires s.device.planned < n.ordinal <= Claim(s, env).0.device.planned
    ensures InNewBatch(s, Claim(s, env).0, n.ordinal) <==> Allowed(n, env) && Timely(n, env)
    ensures Allowed(n, env) ==> Settled(n, env)
  {
    ClaimJumpsNothing(s, env, n);
    OnlyBatchesPlan(s, env);
    NewIsUnsent(s, env, n);
    VerdictMeans(s, env, n);
    RangedSame(s, env);
    assert !AllowRecovery(Ranged(s, env), n.ordinal) by { ScanRange(s, env, n.ordinal); }
    hide Claim, Classify, AllowRecovery, LooksBack, Unsent, Allowed, Settled, Timely, Inv;
    if InNewBatch(s, Claim(s, env).0, n.ordinal) {
      var m := BatchIsTakeable(s, env, n.ordinal) by { assert Inv(s); }
      SameNote(s, m, n);
    }
  }

  lemma OnlyBatchesPlan(s: State, env: Env)
    requires Inv(s)
    ensures Claim(s, env).0.device.planned != s.device.planned ==> MayBatch(s, env)
  {
    LiveIsFirst(s);
    hide FormBatch, NothingLive;
    if FirstLive(s.deliveries, 0).Some? {
      ClaimUnderWayPlans(s, FirstLive(s.deliveries, 0).value, env);
    }
  }

  // ---- When a claim answers with a batch ----

  /** Something may be shown, nothing ahead of it is held up, and the window reaches it. */
  ghost predicate SomethingToShow(s: State, env: Env) {
    exists n :: n in s.notes && Reached(s, env, n) && Takeable(s, env, n)
  }

  lemma WindowBefore(s: State, env: Env, n: Note) returns (at: nat)
    requires Inv(s) && !env.quiet && Reached(s, env, n)
    ensures var r := Ranged(s, env);
            var window := AttentionWindow(s.notes, ScanFrom(r));
            at < |window| && window[at] == n && at == |Ahead(s, env, n)| && forall j :: 0 <= j < at ==> VerdictAt(r, env, window[j]) != Defer
  {
    at := PlaceInScan(s, env, n);
    RangedSame(s, env);
    var all := Attention(s.notes, ScanFrom(Ranged(s, env)));
    var window := AttentionWindow(s.notes, ScanFrom(Ranged(s, env)));
    hide Classify, LooksBack, AllowRecovery, Ranged;
    forall j | 0 <= j < at
      ensures window[j] == all[j] && VerdictAt(Ranged(s, env), env, window[j]) != Defer
    {
      assert all[j] in Ahead(s, env, n);
      VerdictMeans(s, env, all[j]);
    }
  }

  lemma ScanTakes(s: State, env: Env, n: Note)
    requires Inv(s) && !env.quiet && Reached(s, env, n) && Takeable(s, env, n)
    ensures var c := ScanWindow(Ranged(s, env), env).candidates; c != [] && (|Ahead(s, env, n)| < 100 ==> n in c)
  {
    var at := WindowBefore(s, env, n);
    RangedSame(s, env);
    VerdictMeans(s, env, n);
    var window := AttentionWindow(s.notes, ScanFrom(Ranged(s, env)));
    hide Classify, LooksBack, AllowRecovery, Ranged, Takeable, Ahead, Reached, Inv;
    assert window[0..] == window;
    ScanReaches(Ranged(s, env), env, window, 0, at, Start(s.device.planned));
  }

  lemma ScanShows(s: State, env: Env)
    requires Inv(s) && !env.quiet && ScanWindow(Ranged(s, env), env).candidates != []
    ensures SomethingToShow(s, env)
  {
    RangedSame(s, env);
    var r := Ranged(s, env);
    var window := AttentionWindow(s.notes, ScanFrom(r));
    assert window[0..] == window;
    hide Classify, LooksBack, AllowRecovery, Ranged, Reached, Takeable, Inv;
    var at := ScanFinds(r, env, window, 0, Start(s.device.planned));
    FoundIsReached(s, env, at);
    VerdictMeans(s, env, window[at]);
  }

  lemma FoundIsReached(s: State, env: Env, at: nat)
    requires Inv(s) && !env.quiet && at < |AttentionWindow(s.notes, ScanFrom(Ranged(s, env)))|
    requires forall j :: 0 <= j < at ==> VerdictAt(Ranged(s, env), env, AttentionWindow(s.notes, ScanFrom(Ranged(s, env)))[j]) != Defer
    ensures Reached(s, env, AttentionWindow(s.notes, ScanFrom(Ranged(s, env)))[at])
  {
    hide Classify, LooksBack, AllowRecovery, Ranged, Attention, Inv, Takeable, ScanFrom;
    RangedSame(s, env);
    ScannedIsLooked(s, env);
    var all := Attention(s.notes, ScanFrom(Ranged(s, env)));
    var window := AttentionWindow(s.notes, ScanFrom(Ranged(s, env)));
    assert Sorted(all) by { assert Inv(s); AttentionSorted(s.notes, ScanFrom(Ranged(s, env))); }
    var n := window[at];
    assert all[at] == n && n in all;
    var place := PlaceInScan(s, env, n);
    assert place == at;
    forall m | m in Ahead(s, env, n) && Allowed(m, env)
      ensures Settled(m, env)
    {
      BeforeIsLess(all, at, m);
      var j :| 0 <= j < at && all[..at][j] == m;
      assert window[j] == m;
      VerdictMeans(s, env, m);
    }
  }

  /**
   * With nothing under way and the slot free, outside quiet hours: a claim answers with a new batch
   * exactly when there is something to show that nothing holds up.
   */
  lemma ClaimAnswers(s: State, env: Env)
    requires Inv(s) && MayBatch(s, env)
    ensures Claim(s, env).1 == if SomethingToShow(s, env) then Some(Lease(|s.deliveries|, s.minted, env.now + 10_000)) else None
    ensures |Claim(s, env).0.deliveries| == |s.deliveries| + (if SomethingToShow(s, env) then 1 else 0)
  {
    hide Claim, FormBatch, SomethingToShow, NothingLive, Inv, Ranged, ScanWindow;
    BatchIsScanned(s, env);
    RangedSame(s, env);
    ScanSays(s, env);
    FormAnswers(Ranged(s, env), env);
  }

  lemma FormAnswers(s: State, env: Env)
    ensures var c := ScanWindow(s, env).candidates;
            && FormBatch(s, env).1 == (if c != [] then Some(Lease(|s.deliveries|, s.minted, env.now + 10_000)) else None)
            && |FormBatch(s, env).0.deliveries| == |s.deliveries| + (if c != [] then 1 else 0)
  {
    hide ScanWindow, Target;
  }

  lemma ScanSays(s: State, env: Env)
    requires Inv(s) && !env.quiet
    ensures SomethingToShow(s, env) <==> ScanWindow(Ranged(s, env), env).candidates != []
  {
    hide ScanWindow, Ranged, Inv, Takeable, Reached;
    if SomethingToShow(s, env) {
      var n :| n in s.notes && Reached(s, env, n) && Takeable(s, env, n);
      ScanTakes(s, env, n);
    } else if ScanWindow(Ranged(s, env), env).candidates != [] {
      ScanShows(s, env);
    }
  }

  /** And a notification among the first hundred looked at is in it; the row stands claimed, with its lease and deadline. */
  lemma ClaimTakes(s: State, env: Env, n: Note)
    requires Inv(s) && MayBatch(s, env) && Reached(s, env, n) && Takeable(s, env, n)
    ensures |Claim(s, env).0.deliveries| == |s.deliveries| + 1
    ensures var d := Claim(s, env).0.deliveries[|s.deliveries|];
            && d.state == Claimed && d.claimToken == Some(s.minted) && d.claimExpiresAt == Some(env.now + 10_000)
            && d.permit == None && d.attempt == 0 && d.absoluteExpiresAt == env.now + 120_000 && !d.test
            && (|Ahead(s, env, n)| < 100 ==> n.ordinal in d.items)
  {
    hide Claim, FormBatch, NothingLive, Inv, Ranged, ScanWindow, Takeable, Reached, Ahead;
    BatchIsScanned(s, env);
    RangedSame(s, env);
    ScanTakes(s, env, n);
    FormRow(Ranged(s, env), env);
  }

  lemma FormRow(s: State, env: Env)
    requires ScanWindow(s, env).candidates != []
    ensures |FormBatch(s, env).0.deliveries| == |s.deliveries| + 1
    ensures var d := FormBatch(s, env).0.deliveries[|s.deliveries|];
            && d.state == Claimed && d.claimToken == Some(s.minted) && d.claimExpiresAt == Some(env.now + 10_000)
            && d.permit == None && d.attempt == 0 && d.absoluteExpiresAt == env.now + 120_000 && !d.test
            && d.items == Ordinals(ScanWindow(s, env).candidates)
  {
    hide ScanWindow, Target;
  }

  // ---- What a claim leaves behind ----

  lemma {:induction false} ScanPasses(s: State, env: Env, window: seq<Note>, k: nat, at: nat, acc: Scan)
    requires Sorted(window) && k <= |window| && at < |window| && acc.deferredAt.None?
    requires ScanRows(s, env, window[k..], acc).candidates == [] && acc.candidates == []
    requires forall j :: k <= j <= at ==> VerdictAt(s, env, window[j]) != Defer
    requires k > at ==> acc.watermark >= window[at].ordinal
    ensures Target(ScanRows(s, env, window[k..], acc)) >= window[at].ordinal
    decreases |window| - k
  {
    hide Classify, AllowRecovery;
    if k < |window| {
      var row := window[k];
      assert window[k..][1..] == window[k + 1..];
      assert k > at ==> row.ordinal > window[at].ordinal;
      match VerdictAt(s, env, row)
      case Skip => ScanPasses(s, env, window, k + 1, at, acc.(watermark := row.ordinal));
      case Defer =>
      case Ready =>
        var next := acc.(includedRecovery := acc.includedRecovery || AllowRecovery(s, row.ordinal), candidates := acc.candidates + [row]);
        ScanGrows(s, env, window[k + 1..], next);
        assert false;
    }
  }

  /** A claim that finds nothing to show never looks again at what it reached and was not held up by, so the window moves on. */
  lemma NothingClogs(s: State, env: Env, n: Note)
    requires Inv(s) && MayBatch(s, env) && !SomethingToShow(s, env)
    requires Reached(s, env, n) && (Allowed(n, env) ==> Settled(n, env))
    ensures Claim(s, env).0.device.planned >= n.ordinal
  {
    hide Claim, FormBatch, NothingLive, Inv, Ranged, Reached, SomethingToShow, LooksBack, AllowRecovery, Classify;
    BatchIsScanned(s, env);
    RangedSame(s, env);
    ScanSays(s, env);
    var r := Ranged(s, env);
    var window := AttentionWindow(s.notes, ScanFrom(r));
    var at := WindowBefore(s, env, n);
    assert Sorted(Attention(s.notes, ScanFrom(r))) by { assert Inv(s); AttentionSorted(s.notes, ScanFrom(r)); }
    assert VerdictAt(r, env, n) != Defer by { assert Reached(s, env, n); VerdictMeans(s, env, n); }
    assert window[0..] == window;
    ScanPasses(r, env, window, 0, at, Start(s.device.planned));
    BatchPlans(r, env);
  }

  // ---- How long the look back stays armed ----

  lemma {:induction false} ScanHolds(s: State, env: Env, window: seq<Note>, k: nat, at: nat, acc: Scan)
    requires k <= at < |window| && acc.deferredAt.None?
    requires forall j :: k <= j < at ==> VerdictAt(s, env, window[j]) == Skip
    requires VerdictAt(s, env, window[at]) == Defer
    ensures var scan := ScanRows(s, env, window[k..], acc);
            && scan.candidates == acc.candidates && scan.deferredAt == Some(window[at].ordinal)
            && (AllowRecovery(s, window[at].ordinal) ==> scan.recoveryDeferred)
    decreases at - k
  {
    hide Classify, AllowRecovery;
    assert window[k..][1..] == window[k + 1..];
    if k < at { ScanHolds(s, env, window, k + 1, at, acc.(watermark := window[k].ordinal)); }
  }

  /** What is looked back at but too fresh or on screen keeps the look back armed for the next claim. */
  lemma LookBackWaits(s: State, env: Env, n: Note, later: Env)
    requires Inv(s) && MayBatch(s, env) && Reached(s, env, n) && n.ordinal <= s.device.planned
    requires Allowed(n, env) && !Settled(n, env) && forall m :: m in Ahead(s, env, n) ==> !Takeable(s, env, m)
    ensures Claim(s, env).1 == None && Claim(s, env).0.device == s.device
    ensures LooksBack(Claim(s, env).0, later, n.ordinal)
  {
    BatchIsScanned(s, env);
    RangedSame(s, env);
    HeldScan(s, env, n);
    assert n.ordinal >= 1;
    ScanRange(s, env, n.ordinal);
    hide ScanWindow, NothingLive, Claim, Inv, Reached, Ahead;
  }

  lemma HeldScan(s: State, env: Env, n: Note)
    requires Inv(s) && !env.quiet && Reached(s, env, n) && n.ordinal <= s.device.planned
    requires Allowed(n, env) && !Settled(n, env) && forall m :: m in Ahead(s, env, n) ==> !Takeable(s, env, m)
    ensures var scan := ScanWindow(Ranged(s, env), env);
            scan.candidates == [] && scan.deferredAt == Some(n.ordinal) && scan.recoveryDeferred
  {
    var at := WindowBefore(s, env, n);
    RangedSame(s, env);
    var r := Ranged(s, env);
    var window := AttentionWindow(s.notes, ScanFrom(r));
    var place := PlaceInScan(s, env, n);
    VerdictMeans(s, env, n);
    assert AllowRecovery(r, n.ordinal) by { assert n.ordinal >= 1; ScanRange(s, env, n.ordinal); }
    hide Classify, LooksBack, AllowRecovery, Ranged, Takeable, Inv, Reached;
    forall j | 0 <= j < at
      ensures VerdictAt(r, env, window[j]) == Skip
    {
      VerdictMeans(s, env, window[j]);
    }
    assert window[0..] == window;
    ScanHolds(r, env, window, 0, at, Start(s.device.planned));
  }

  /** A claim in quiet hours with nothing under way makes the next one outside them look back. */
  lemma QuietLooksBack(s: State, quiet: Env, env: Env, o: Note)
    requires Inv(s) && s.device.enabled && quiet.granted && quiet.quiet && !env.quiet && NothingLive(s)
    requires o in s.notes && o.action == Open && !o.read
    ensures Claim(s, quiet).1 == None && LooksBack(Claim(s, quiet).0, env, o.ordinal)
  {
    LiveIsFirst(s);
  }

  // ---- Leases ----

  predicate Due(d: Delivery, env: Env) {
    d.state == Pending || (d.state == RetryWait && !env.quiet && env.now < d.absoluteExpiresAt && env.now >= d.nextAttemptAt.GetOr(0))
  }

  /** With a delivery under way a claim leases just that one, under a new token, exactly when it is due and the slot is free. */
  lemma LeasedExactly(s: State, i: nat, env: Env)
    requires Inv(s) && i < |s.deliveries| && s.deliveries[i].state in {Pending, Claimed, RetryWait}
    ensures Claim(s, env).1 ==
            if s.device.enabled && env.granted && Due(s.deliveries[i], env) && SlotFree(s.device, env.now)
            then Some(Lease(i, s.minted, env.now + 10_000)) else None
    ensures Claim(s, env).1.Some? ==>
              Claim(s, env).0.deliveries ==
              s.deliveries[i := s.deliveries[i].(state := Claimed, claimToken := Some(s.minted), claimExpiresAt := Some(env.now + 10_000))]
  {
    assert RowOk(s, s.deliveries[i]);
    assert FirstLive(s.deliveries, 0) == Some(i);
  }

  /** Whoever holds the delivery under its present token. */
  predicate Held(s: State, i: nat, token: nat) {
    i < |s.deliveries| && s.deliveries[i].state == Claimed && s.deliveries[i].claimToken == Some(token)
  }

  /**
   * A report of a send that was not accepted: over, after the third attempt or the deadline; else
   * leased again exactly from five seconds on after the first attempt, twenty after the second.
   */
  lemma RetriesBackOff(s: State, i: nat, token: nat, result: ReportResult, now: int, env: Env)
    requires Inv(s) && Held(s, i, token) && result != ReportAccepted && s.device.enabled
    ensures var s' := Report(s, i, token, result, false, now);
            var d, d' := s.deliveries[i], s'.deliveries[i];
            && d'.attempt == d.attempt + 1
            && if d.attempt == 2 || now >= d.absoluteExpiresAt then
              d'.state == if result == ReportUnknown then Unknown else Failed
            else
              Claim(s', env).1.Some? <==>
              && env.granted && !env.quiet && SlotFree(s.device, env.now)
              && env.now < d.absoluteExpiresAt && env.now >= now + (if d.attempt == 0 then 5_000 else 20_000)
  {
    var s' := Report(s, i, token, result, false, now);
    assert RowOk(s, s.deliveries[i]);
    ReportKeeps(s, i, token, result, false, now);
    hide Claim, Inv;
    if s'.deliveries[i].state == RetryWait { LeasedExactly(s', i, env); }
  }

  /** A report counts once, and only from whoever holds the lease. */
  lemma ReportSettles(s: State, i: nat, token: nat, result: ReportResult, cancelled: bool, now: int)
    ensures var s' := Report(s, i, token, result, cancelled, now);
            if !Held(s, i, token) then s' == s
            else
              var d, d' := s.deliveries[i], s'.deliveries[i];
              && s' == s.(deliveries := s.deliveries[i := d']) && d'.attempt == d.attempt + 1 && d'.items == d.items
              && (d'.state == Accepted <==> result == ReportAccepted)
              && (d'.state == Suppressed <==> result != ReportAccepted && cancelled)
              && !Held(s', i, token)
  {
  }

  /**
   * A lease that ran out: past the deadline it expires; unless a permit was given it counts for
   * nothing and may be leased again at once; else it counts as an attempt and backs off as a report would.
   */
  lemma LapsedLease(s: State, i: nat, at: Env, env: Env)
    requires Inv(s) && i < |s.deliveries| && s.deliveries[i].state == Claimed && s.device.enabled && at.granted
    ensures var s', answer := Claim(s, at).0, Claim(s, at).1;
            var d, d' := s.deliveries[i], s'.deliveries[i];
            && answer == None && |s'.deliveries| == |s.deliveries|
            && if at.now < d.claimExpiresAt.GetOr(0) then s' == s
            else if at.now >= d.absoluteExpiresAt then d'.state == Expired
            else if d.permit.Some? && d.attempt == 2 then d'.state == Failed && d'.attempt == 3
            else
              && d'.attempt == d.attempt + (if d.permit.Some? then 1 else 0)
              && (Claim(s', env).1.Some? <==>
                  && env.granted && !env.quiet && SlotFree(s.device, env.now) && env.now < d.absoluteExpiresAt
                  && env.now >= at.now + (if d.permit.None? then 0 else if d.attempt == 0 then 5_000 else 20_000))
  {
    assert RowOk(s, s.deliveries[i]);
    assert FirstLive(s.deliveries, 0) == Some(i);
    ClaimKeeps(s, at);
    var s' := Claim(s, at).0;
    assert s' == ClaimUnderWay(s, i, at).0;
    hide Claim, Inv;
    if s'.deliveries[i].state == RetryWait { LeasedExactly(s', i, env); }
  }

  // ---- Asking before showing ----

  /** Some notification of the delivery still wants attention. */
  ghost predicate Wanted(s: State, i: nat)
    requires i < |s.deliveries|
  {
    exists n :: n in s.notes && n.ordinal in s.deliveries[i].items && (!n.read || n.action == Open)
  }

  /** The slot is free even where an attempt at clock 0 is not taken for none. */
  predicate SlotReserved(dev: Device, now: int) {
    dev.lastAttempt.None? || now >= dev.lastAttempt.value + 30_000
  }

  /** In time, and the device is on. */
  predicate MayAsk(s: State, i: nat, token: nat, now: int) {
    Held(s, i, token) && now <= s.deliveries[i].absoluteExpiresAt && s.device.enabled
  }

  ghost predicate MayShow(s: State, i: nat, env: Env)
    requires i < |s.deliveries|
  {
    var d := s.deliveries[i];
    if d.test then d.permit.Some? || SlotFree(s.device, env.now)
    else !env.quiet && SlotFree(s.device, env.now) && Wanted(s, i) && (d.permit.Some? || SlotReserved(s.device, env.now))
  }

  /** Every answer, and exactly when it is given. */
  lemma RevalidateExactly(s: State, i: nat, token: nat, env: Env)
    requires Inv(s)
    ensures var answer := Revalidate(s, i, token, env).1;
            && (answer.Deliver? <==> MayAsk(s, i, token, env.now) && MayShow(s, i, env))
            && (answer.RetryLater? <==>
                && MayAsk(s, i, token, env.now) && !MayShow(s, i, env)
                && (s.deliveries[i].test || env.quiet || !SlotFree(s.device, env.now) || Wanted(s, i)))
  {
  }

  /** What a cancelled delivery comes to: expired past its deadline, suppressed when nothing of it is wanted any more. */
  lemma CancelMeans(s: State, i: nat, token: nat, env: Env)
    requires Inv(s) && Revalidate(s, i, token, env).1.Cancel?
    ensures Revalidate(s, i, token, env).0 ==
            if !Held(s, i, token) then s
            else if env.now > s.deliveries[i].absoluteExpiresAt then s.(deliveries := s.deliveries[i := s.deliveries[i].(state := Expired)])
            else if !s.device.enabled then s
            else s.(deliveries := s.deliveries[i := s.deliveries[i].(state := Suppressed)])
  {
  }

  /**
   * Told to come back later, the lease is given up, and from that time on, and no sooner, a claim
   * leases the delivery again; if the slot was the reason, it is free by then and, but for a least
   * wait of a second, no sooner.
   */
  lemma RetryLaterIsTrue(s: State, i: nat, token: nat, env: Env, again: Env)
    requires Inv(s) && Revalidate(s, i, token, env).1.RetryLater?
    ensures var s', ms := Revalidate(s, i, token, env).0, Revalidate(s, i, token, env).1.ms;
            && ms >= 1_000 && s'.device == s.device && !Held(s', i, token)
            && (env.quiet && !s.deliveries[i].test ==> ms == 60_000)
            && (!(env.quiet && !s.deliveries[i].test) ==>
                SlotReserved(s.device, env.now + ms) && (ms == 1_000 || !SlotReserved(s.device, env.now + ms - 1)))
            && (Claim(s', again).1.Some? <==>
                && again.granted && !again.quiet && SlotFree(s.device, again.now)
                && again.now < s.deliveries[i].absoluteExpiresAt && again.now >= env.now + ms)
  {
    RevalidateKeeps(s, i, token, env);
    var s' := Revalidate(s, i, token, env).0;
    assert s'.deliveries[i].state == RetryWait;
    hide Claim, Inv;
    LeasedExactly(s', i, again);
  }

  // ---- From the claim to the screen ----

  /** A notification that may be shown is claimed, permitted and, once accepted, never sent again. */
  lemma ShownOnce(s: State, env: Env, n: Note, asked: Env, now: int)
    requires Inv(s) && MayBatch(s, env) && Reached(s, env, n) && Takeable(s, env, n) && |Ahead(s, env, n)| < 100
    requires asked.now <= env.now + 120_000 && !asked.quiet && SlotReserved(s.device, asked.now)
    ensures var i, token := |s.deliveries|, s.minted;
            var claimed := Claim(s, env).0;
            var asking := Revalidate(claimed, i, token, asked);
            var shown := Report(asking.0, i, token, ReportAccepted, false, now);
            && asking.1 == Deliver(s.minted + 1)
            && |shown.deliveries| == i + 1 && n.ordinal in shown.deliveries[i].items && shown.deliveries[i].state == Accepted
            && shown.device.lastAttempt == Some(asked.now)
            && forall later :: !Unsent(shown, later, n)
  {
    assert n in s.notes && (!n.read || n.action == Open);
    hide Claim, FormBatch, Inv, Reached, Takeable, NothingLive, Ahead, LooksBack, Revalidate, Report;
    ClaimTakes(s, env, n);
    ClaimAnswers(s, env);
    FormedKeeps(s, env);
    LeaseIsShown(Claim(s, env).0, |s.deliveries|, s.minted, n, asked, now);
  }

  lemma LeaseIsShown(s: State, i: nat, token: nat, n: Note, asked: Env, now: int)
    requires Held(s, i, token) && !s.deliveries[i].test && s.deliveries[i].permit.None? && s.device.enabled
    requires n in s.notes && n.ordinal in s.deliveries[i].items && (!n.read || n.action == Open)
    requires asked.now <= s.deliveries[i].absoluteExpiresAt && !asked.quiet && SlotOk(s) && SlotReserved(s.device, asked.now)
    ensures var asking := Revalidate(s, i, token, asked);
            var shown := Report(asking.0, i, token, ReportAccepted, false, now);
            && asking.1 == Deliver(s.minted) && |shown.deliveries| == |s.deliveries|
            && n.ordinal in shown.deliveries[i].items && shown.deliveries[i].state == Accepted && shown.device.lastAttempt == Some(asked.now)
            && forall later :: !Unsent(shown, later, n)
  {
    hide LooksBack;
    assert StillWanted(s, s.deliveries[i].items);
    var shown := Report(Revalidate(s, i, token, asked).0, i, token, ReportAccepted, false, now);
    assert shown.deliveries[i] in shown.deliveries;
  }

  lemma FormedKeeps(s: State, env: Env)
    requires Inv(s) && MayBatch(s, env) && Claim(s, env).1.Some?
    ensures var s' := Claim(s, env).0;
            s'.notes == s.notes && s'.minted == s.minted + 1 && s'.device.(planned := s.device.planned) == s.device && SlotOk(s')
  {
    hide Claim, FormBatch, NothingLive, Inv, Ranged;
    BatchIsScanned(s, env);
    RangedSame(s, env);
    FormKeepsRest(Ranged(s, env), env);
    assert SlotOk(Ranged(s, env)) by { assert Inv(Ranged(s, env)); }
  }

  lemma FormKeepsRest(s: State, env: Env)
    requires FormBatch(s, env).1.Some?
    ensures var s' := FormBatch(s, env).0;
            s'.notes == s.notes && s'.minted == s.minted + 1 && s'.device.(planned := s.device.planned) == s.device
  {
    hide ScanWindow, Target;
  }

  /** A test is queued exactly a minute or more after the last one asked for, with the device on and nothing under way. */
  lemma TestExactly(s: State, now: int)
    ensures var s', answer := Test(s, now).0, Test(s, now).1;
            && (answer == RateLimited <==> now < s.lastTest + 60_000)
            && (answer == Queued <==> now >= s.lastTest + 60_000 && s.device.enabled && NothingLive(s))
            && (answer == DeviceDisabled ==> !s.device.enabled)
            && s'.lastTest == (if answer == RateLimited then s.lastTest else now)
            && |s'.deliveries| == |s.deliveries| + (if answer == Queued then 1 else 0)
  {
    LiveIsFirst(s);
    hide NothingLive;
  }

  /** A test goes from the button to the screen, in quiet hours too and whatever the categories say. */
  lemma TestArrives(s: State, pressed: int, claim: Env, asked: Env, now: int)
    requires Inv(s) && s.device.enabled && NothingLive(s) && pressed >= s.lastTest + 60_000
    requires claim.granted && SlotFree(s.device, claim.now) && SlotFree(s.device, asked.now) && asked.now <= pressed + 120_000
    ensures var i := |s.deliveries|;
            var queued := Test(s, pressed).0;
            var claimed := Claim(queued, claim);
            var asking := Revalidate(claimed.0, i, s.minted, asked);
            && claimed.1 == Some(Lease(i, s.minted, claim.now + 10_000))
            && asking.1 == Deliver(s.minted + 1)
            && Report(asking.0, i, s.minted, ReportAccepted, false, now).deliveries[i].state == Accepted
  {
    TestExactly(s, pressed);
    TestKeeps(s, pressed);
    var i, queued := |s.deliveries|, Test(s, pressed).0;
    assert queued.deliveries[i].state == Pending;
    LeasedExactly(queued, i, claim);
    LeaseMints(queued, i, claim);
    hide Claim, Inv, NothingLive;
  }

  lemma LeaseMints(s: State, i: nat, env: Env)
    requires Inv(s) && i < |s.deliveries| && IsLive(s.deliveries[i].state) && Claim(s, env).1.Some?
    ensures Claim(s, env).0.minted == s.minted + 1 && Claim(s, env).0.device == s.device
  {
    assert RowOk(s, s.deliveries[i]);
    assert FirstLive(s.deliveries, 0) == Some(i);
  }
}
