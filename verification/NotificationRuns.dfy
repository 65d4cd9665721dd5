/** What every run of the delivery protocol keeps. */
module NotificationRuns {
  import opened Wrappers
  import opened Notifications

  /**
   * A run is any sequence of claims, revalidations, reports and tests, interleaved with new
   * notifications, reads and resolutions, a device switched on or off, and restarts of the process.
   */
  datatype Step =
    | DoClaim(env: Env)
    | DoRevalidate(delivery: nat, token: nat, env: Env)
    | DoReport(delivery: nat, token: nat, result: ReportResult, cancelled: bool, now: int)
    | DoTest(now: int)
    | Arrive(note: Note)
    | Touch(row: nat, read: bool, action: ActionState)
    | SwitchDevice(enabled: bool)
    | Restart

  function Restarted(s: State): State {
    s.(lastTest := 0, armed := true, floor := None, ceiling := None, lastQuiet := None)
  }

  /** The store's counter gives a new notification the next ordinal. */
  function NextOrdinal(notes: seq<Note>): nat {
    if notes == [] then 1 else notes[|notes| - 1].ordinal + 1
  }

  ghost function Apply(s: State, step: Step): State {
    match step
    case DoClaim(env) => Claim(s, env).0
    case DoRevalidate(i, token, env) => Revalidate(s, i, token, env).0
    case DoReport(i, token, result, cancelled, now) => Report(s, i, token, result, cancelled, now)
    case DoTest(now) => Test(s, now).0
    case Arrive(n) => s.(notes := s.notes + [n.(ordinal := NextOrdinal(s.notes))])
    case Touch(row, read, action) =>
      if row < |s.notes| then s.(notes := s.notes[row := s.notes[row].(read := read, action := action)]) else s
    case SwitchDevice(enabled) => s.(device := s.device.(enabled := enabled))
    case Restart => Restarted(s)
  }

  ghost function Run(s: State, steps: seq<Step>): State {
    if steps == [] then s else Apply(Run(s, steps[..|steps| - 1]), steps[|steps| - 1])
  }

  /** A store with no deliveries yet, and a scheduler just constructed. */
  ghost predicate Fresh(s: State) {
    && Sorted(s.notes) && s.deliveries == [] && s.minted == 0 && s.device.planned == 0
    && s.device.lastAttempt.None? && s.device.nextSend.None?
    && s.lastTest == 0 && s.armed && s.floor.None? && s.ceiling.None? && s.lastQuiet.None?
  }

  ghost predicate Sorted(notes: seq<Note>) {
    && (forall i :: 0 <= i < |notes| ==> notes[i].ordinal >= 1)
    && (forall i, j :: 0 <= i < j < |notes| ==> notes[i].ordinal < notes[j].ordinal)
  }

  // ---- The invariant ----

  predicate LiveOrAccepted(st: DeliveryState) {
    IsLive(st) || st == Accepted
  }

  predicate RowOk(s: State, d: Delivery) {
    && (d.state == Pending ==> d.test)
    && d.attempt <= MAX_DELIVERY_ATTEMPTS
    && (IsLive(d.state) ==> d.attempt < MAX_DELIVERY_ATTEMPTS)
    && (d.claimToken.Some? ==> d.claimToken.value < s.minted)
    && (d.permit.Some? ==> d.permit.value < s.minted)
    && (d.test ==> d.items == {})
    && |d.items| <= BATCH_ITEM_LIMIT
    && (forall n :: n in d.items ==> n <= s.device.planned)
  }

  ghost predicate OneLive(ds: seq<Delivery>) {
    forall i, j :: 0 <= i < j < |ds| && IsLive(ds[i].state) ==> !IsLive(ds[j].state)
  }

  /** No notification is in two deliveries that are under way or accepted. */
  ghost predicate NoDoubleSend(ds: seq<Delivery>) {
    forall i, j, n :: 0 <= i < j < |ds| && LiveOrAccepted(ds[i].state) && LiveOrAccepted(ds[j].state) && n in ds[i].items ==> n !in ds[j].items
  }

  ghost predicate RecoveryOk(s: State) {
    && s.floor.Some? == s.ceiling.Some?
    && (s.ceiling.Some? ==> s.armed && s.ceiling.value == s.device.planned)
  }

  ghost predicate SlotOk(s: State) {
    s.device.nextSend == match s.device.lastAttempt case None => None case Some(t) => Some(t + SEND_SLOT_INTERVAL_MS)
  }

  ghost predicate Inv(s: State) {
    && Sorted(s.notes)
    && (forall i :: 0 <= i < |s.deliveries| ==> RowOk(s, s.deliveries[i]))
    && OneLive(s.deliveries)
    && NoDoubleSend(s.deliveries)
    && RecoveryOk(s)
    && SlotOk(s)
  }

  /** Rewriting the row of a delivery that is under way keeps the invariant. */
  lemma PutKeeps(s: State, i: nat, d: Delivery)
    requires Inv(s) && i < |s.deliveries| && RowOk(s, d)
    requires IsLive(s.deliveries[i].state) && d.items == s.deliveries[i].items
    ensures Inv(Put(s, i, d))
  {
    var ds, ds' := s.deliveries, s.deliveries[i := d];
    forall j, k, n | 0 <= j < k < |ds'| && LiveOrAccepted(ds'[j].state) && LiveOrAccepted(ds'[k].state) && n in ds'[j].items
      ensures n !in ds'[k].items
    {
      assert LiveOrAccepted(ds[j].state) && LiveOrAccepted(ds[k].state) && n in ds[j].items;
    }
  }

  lemma MintKeeps(s: State)
    requires Inv(s)
    ensures Inv(Mint(s))
  {
  }

  // ---- The scan ----

  /**
   * What a scan has done with the rows it has passed: `seen` is the part of the window behind it.
   * Rows past the planned ordinal were skipped or became candidates.
   */
  ghost predicate ScanOk(s: State, env: Env, seen: seq<Note>, acc: Scan) {
    && (forall n :: n in acc.candidates ==> n in seen && Classify(s.deliveries, n, env, AllowRecovery(s, n.ordinal)) == Ready)
    && (forall n :: n in seen && n.ordinal > s.device.planned ==>
          n in acc.candidates || Classify(s.deliveries, n, env, AllowRecovery(s, n.ordinal)) == Skip)
    && (acc.watermark == s.device.planned || exists n :: n in seen && n.ordinal == acc.watermark)
    && |acc.candidates| <= BATCH_ITEM_LIMIT
    && (forall i, j :: 0 <= i < j < |acc.candidates| ==> acc.candidates[i].ordinal < acc.candidates[j].ordinal)
    && ((exists n :: n in acc.candidates && AllowRecovery(s, n.ordinal)) ==> acc.includedRecovery)
  }

  /** The scan has stopped after `k` rows of the window, at a deferred row if it says so. */
  ghost predicate Stopped(s: State, env: Env, window: seq<Note>, k: nat, scan: Scan) {
    && k <= |window|
    && ScanOk(s, env, window[..k], scan)
    && (scan.deferredAt.Some? ==> k < |window| && scan.deferredAt.value == window[k].ordinal)
    && (scan.recoveryDeferred ==> scan.deferredAt.Some? && AllowRecovery(s, window[k].ordinal))
  }

  lemma {:induction false} ScanStops(s: State, env: Env, window: seq<Note>, k: nat, acc: Scan) returns (end: nat)
    requires Sorted(window) && k <= |window|
    requires s.ceiling.Some? ==> s.ceiling.value == s.device.planned
    requires ScanOk(s, env, window[..k], acc) && acc.deferredAt.None? && !acc.recoveryDeferred
    ensures Stopped(s, env, window, end, ScanRows(s, env, window[k..], acc))
    decreases |window| - k
  {
    if k == |window| { return k; }
    var row := window[k];
    var allow := AllowRecovery(s, row.ordinal);
    assert window[k..][1..] == window[k + 1..];
    assert window[..k + 1] == window[..k] + [row];
    RowScanned(s, env, window, k, acc);
    hide Classify, ScanOk, AllowRecovery;
    match Classify(s.deliveries, row, env, allow)
    case Defer => end := k;
    case Skip => end := ScanStops(s, env, window, k + 1, acc.(watermark := row.ordinal));
    case Ready =>
      var next := acc.(includedRecovery := acc.includedRecovery || allow);
      if |acc.candidates| < BATCH_ITEM_LIMIT {
        end := ScanStops(s, env, window, k + 1, next.(candidates := acc.candidates + [row]));
      } else if allow {
        end := ScanStops(s, env, window, k + 1, next);
      } else {
        end := k;
      }
  }

  /** One row more: what the scan may have done with it, and where it may have stopped. */
  lemma RowScanned(s: State, env: Env, window: seq<Note>, k: nat, acc: Scan)
    requires Sorted(window) && k < |window| && ScanOk(s, env, window[..k], acc)
    requires s.ceiling.Some? ==> s.ceiling.value == s.device.planned
    ensures var row := window[k];
            var allow := AllowRecovery(s, row.ordinal);
            var next := acc.(includedRecovery := acc.includedRecovery || allow);
            && (Classify(s.deliveries, row, env, allow) == Skip ==> ScanOk(s, env, window[..k + 1], acc.(watermark := row.ordinal)))
            && (Classify(s.deliveries, row, env, allow) == Ready && |acc.candidates| < BATCH_ITEM_LIMIT ==>
                  ScanOk(s, env, window[..k + 1], next.(candidates := acc.candidates + [row])))
            && (allow ==> ScanOk(s, env, window[..k + 1], next))
            && (Classify(s.deliveries, row, env, allow) == Defer ==>
                  ScanOk(s, env, window[..k], acc.(deferredAt := Some(row.ordinal), recoveryDeferred := allow)))
            && ScanOk(s, env, window[..k], next)
  {
    hide Classify;
    assert window[..k + 1] == window[..k] + [window[k]];
  }

  lemma {:induction false} AttentionSorted(notes: seq<Note>, start: int)
    requires Sorted(notes)
    ensures Sorted(Attention(notes, start))
  {
    if notes != [] {
      var rest := Attention(notes[1..], start);
      AttentionSorted(notes[1..], start);
      FirstIsLeast(notes[0], notes[1..], rest);
      assert Attention(notes, start) == rest || Attention(notes, start) == [notes[0]] + rest;
    }
  }

  lemma FirstIsLeast(first: Note, more: seq<Note>, rest: seq<Note>)
    requires Sorted([first] + more) && Sorted(rest) && forall n :: n in rest ==> n in more
    ensures Sorted([first] + rest)
  {
    var all := [first] + more;
    assert all[0] == first;
    forall i | 0 <= i < |rest|
      ensures first.ordinal < rest[i].ordinal
    {
      assert rest[i] in rest;
      var k :| 0 <= k < |more| && more[k] == rest[i];
      assert all[k + 1] == rest[i];
    }
  }

  /** The window scanned from a state, and how far the scan went into it. */
  lemma WindowScanned(s: State, env: Env) returns (window: seq<Note>, end: nat)
    requires Inv(s)
    ensures window == AttentionWindow(s.notes, ScanFrom(s)) && Sorted(window)
    ensures Stopped(s, env, window, end, ScanWindow(s, env))
  {
    AttentionSorted(s.notes, ScanFrom(s));
    window := AttentionWindow(s.notes, ScanFrom(s));
    assert window[0..] == window;
    end := ScanStops(s, env, window, 0, Start(s.device.planned));
  }

  /** A notification already planned is only ever taken up again by a recovery scan. */
  lemma OnlyRecoveryLooksBack(s: State, ordinal: nat)
    requires RecoveryOk(s) && 1 <= ordinal && ScanFrom(s) <= ordinal <= s.device.planned
    ensures AllowRecovery(s, ordinal)
  {
  }

  /** The target never passes a row that the scan did not settle. */
  lemma TargetSettled(s: State, env: Env, window: seq<Note>, end: nat, scan: Scan)
    requires Sorted(window) && Stopped(s, env, window, end, scan)
    ensures Target(scan) <= s.device.planned || exists n :: n in window[..end] && n.ordinal >= Target(scan)
    ensures forall n :: n in scan.candidates ==> n.ordinal <= Target(scan)
  {
    var top := MaxOrdinal(scan.candidates, scan.watermark);
    if top != scan.watermark {
      var n :| n in scan.candidates && n.ordinal == top;
      assert n in window[..end];
    }
    if scan.deferredAt.Some? {
      forall n | n in scan.candidates
        ensures n.ordinal < scan.deferredAt.value
      {
        var i :| 0 <= i < end && window[..end][i] == n;
        assert window[i].ordinal < window[end].ordinal;
      }
    }
  }

  lemma BatchPlans(s: State, env: Env)
    ensures FormBatch(s, env).0.device.planned ==
            if Target(ScanWindow(s, env)) > s.device.planned then Target(ScanWindow(s, env)) else s.device.planned
  {
  }

  /** Whatever wants attention and is not past the last row scanned was scanned. */
  lemma ScannedBefore(notes: seq<Note>, start: int, end: nat, last: Note, n: Note)
    requires Sorted(notes) && end <= |AttentionWindow(notes, start)|
    requires last in AttentionWindow(notes, start)[..end]
    requires n in notes && WantsAttention(n) && start <= n.ordinal <= last.ordinal
    ensures n in AttentionWindow(notes, start)[..end]
  {
    AttentionSorted(notes, start);
    var all, window := Attention(notes, start), AttentionWindow(notes, start);
    var j :| 0 <= j < |all| && all[j] == n;
    var i :| 0 <= i < end && window[..end][i] == last;
    assert all[i] == last;
    assert j <= i;
    assert window[..end][j] == n;
  }

  /**
   * Whenever a batch scan moves the planned ordinal from p to q, every notification wanting
   * attention in (p, q] was classified skip or is in the new batch: nothing deferred, past the
   * hundred-item cap or past the two-hundred-row limit is jumped.
   */
  lemma NothingJumped(s: State, env: Env, n: Note)
    requires Inv(s) && n in s.notes && WantsAttention(n)
    requires s.device.planned < n.ordinal <= FormBatch(s, env).0.device.planned
    ensures Classify(s.deliveries, n, env, false) == Skip || n in ScanWindow(s, env).candidates
  {
    BatchPlans(s, env);
    var window, end := WindowScanned(s, env);
    var scan := ScanWindow(s, env);
    TargetSettled(s, env, window, end, scan);
    var last :| last in window[..end] && last.ordinal >= Target(scan);
    ScannedBefore(s.notes, ScanFrom(s), end, last, n);
    assert !AllowRecovery(s, n.ordinal);
  }

  // ---- A new batch ----

  lemma {:induction false} OrdinalsCount(notes: seq<Note>)
    ensures |Ordinals(notes)| <= |notes|
  {
    if notes != [] {
      OrdinalsCount(notes[1..]);
      assert notes == [notes[0]] + notes[1..];
      assert Ordinals(notes) == Ordinals(notes[1..]) + {notes[0].ordinal};
    }
  }

  /** What the new batch may hold: nothing under way or accepted, nothing past the new planned ordinal. */
  lemma BatchItems(s: State, env: Env)
    requires Inv(s)
    ensures var scan, planned := ScanWindow(s, env), FormBatch(s, env).0.device.planned;
            && |Ordinals(scan.candidates)| <= BATCH_ITEM_LIMIT
            && (forall n :: n in scan.candidates ==> Classify(s.deliveries, n, env, AllowRecovery(s, n.ordinal)) == Ready)
            && (forall n :: n in scan.candidates ==> ScanFrom(s) <= n.ordinal <= planned)
            && (forall n :: n in scan.candidates && n.ordinal <= s.device.planned ==> scan.includedRecovery)
            && (scan.recoveryDeferred ==> planned == s.device.planned)
  {
    var window, end := WindowScanned(s, env);
    var scan := ScanWindow(s, env);
    TargetSettled(s, env, window, end, scan);
    OrdinalsCount(scan.candidates);
    BatchPlans(s, env);
    forall n | n in scan.candidates
      ensures ScanFrom(s) <= n.ordinal
      ensures n.ordinal <= s.device.planned ==> AllowRecovery(s, n.ordinal)
    {
      assert n in window[..end];
      assert n in Attention(s.notes, ScanFrom(s));
      if n.ordinal <= s.device.planned {
        OnlyRecoveryLooksBack(s, n.ordinal);
      }
    }
  }

  lemma AppendKeeps(ds: seq<Delivery>, d: Delivery)
    requires OneLive(ds) && NoDoubleSend(ds) && FirstLive(ds, 0).None?
    requires forall i, n :: 0 <= i < |ds| && n in d.items && n in ds[i].items ==> !LiveOrAccepted(ds[i].state)
    ensures OneLive(ds + [d]) && NoDoubleSend(ds + [d])
  {
  }

  /** A higher planned ordinal keeps the rows; the arming must be gone, or the ordinal where it was. */
  lemma AdvanceKeeps(s: State, target: int)
    requires Inv(s) && (target <= s.device.planned || s.ceiling.None?)
    ensures Inv(Advance(s, target))
  {
  }

  lemma ConsumeKeeps(s: State)
    requires Inv(s)
    ensures Inv(ConsumeRecovery(s))
  {
  }

  /** Recovery is consumed unless the planned ordinal stays where it was. */
  lemma SettleKeeps(s: State, target: int, consumed: bool)
    requires Inv(s) && (consumed || target <= s.device.planned)
    ensures Inv(if consumed then ConsumeRecovery(Advance(s, target)) else Advance(s, target))
  {
    if consumed {
      AdvanceKeeps(ConsumeRecovery(s), target);
      assert Advance(ConsumeRecovery(s), target) == ConsumeRecovery(Advance(s, target));
    } else {
      AdvanceKeeps(s, target);
    }
  }

  /** The new row, before the planned ordinal catches up with its items. */
  lemma NewRowKeeps(s: State, d: Delivery, planned: nat)
    requires Inv(s) && FirstLive(s.deliveries, 0).None? && s.device.planned <= planned
    requires RowOk(Mint(s).(device := s.device.(planned := planned)), d)
    requires forall i, n :: 0 <= i < |s.deliveries| && n in d.items && n in s.deliveries[i].items ==> !LiveOrAccepted(s.deliveries[i].state)
    requires s.ceiling.None? || planned == s.device.planned
    ensures Inv(Mint(s).(deliveries := s.deliveries + [d], device := s.device.(planned := planned)))
  {
    AppendKeeps(s.deliveries, d);
  }

  lemma ReadyMeansFree(s: State, env: Env, i: nat, n: nat)
    requires Inv(s) && i < |s.deliveries| && n in s.deliveries[i].items && n in Ordinals(ScanWindow(s, env).candidates)
    ensures !LiveOrAccepted(s.deliveries[i].state)
  {
    BatchItems(s, env);
    var c :| c in ScanWindow(s, env).candidates && c.ordinal == n;
    assert !DispositionOf(s.deliveries, n).live && !DispositionOf(s.deliveries, n).accepted;
  }

  lemma FormBatchKeeps(s: State, env: Env)
    requires Inv(s) && FirstLive(s.deliveries, 0).None?
    ensures Inv(FormBatch(s, env).0)
  {
    hide ScanWindow, Target, NoDoubleSend, OneLive, Sorted, SlotOk;
    BatchItems(s, env);
    BatchPlans(s, env);
    var scan := ScanWindow(s, env);
    var s' := FormBatch(s, env).0;
    if scan.candidates == [] {
      SettleKeeps(s, Target(scan), !scan.recoveryDeferred);
    } else {
      var d := s'.deliveries[|s.deliveries|];
      forall i, n | 0 <= i < |s.deliveries| && n in d.items && n in s.deliveries[i].items
        ensures !LiveOrAccepted(s.deliveries[i].state)
      {
        ReadyMeansFree(s, env, i, n);
      }
      if scan.includedRecovery || !scan.recoveryDeferred {
        ConsumeKeeps(s);
        NewRowKeeps(ConsumeRecovery(s), d, s'.device.planned);
      } else {
        NewRowKeeps(s, d, s'.device.planned);
      }
    }
  }

  lemma SetRangeKeeps(s: State, quiet: bool)
    requires Inv(s)
    ensures Inv(SetRecoveryRange(NoteQuiet(s, quiet))) && Inv(NoteQuiet(s, quiet))
  {
  }

  lemma ClaimUnderWayKeeps(s: State, i: nat, env: Env)
    requires Inv(s) && i < |s.deliveries| && IsLive(s.deliveries[i].state)
    ensures Inv(ClaimUnderWay(s, i, env).0)
  {
    var r := ClaimUnderWay(s, i, env);
    assert RowOk(s, s.deliveries[i]);
    if r.1.Some? {
      MintKeeps(s);
      PutKeeps(Mint(s), i, r.0.deliveries[i]);
    } else if r.0 != s {
      PutKeeps(s, i, r.0.deliveries[i]);
    }
  }

  lemma ClaimNewKeeps(s: State, env: Env)
    requires Inv(s) && FirstLive(s.deliveries, 0).None?
    ensures Inv(ClaimNew(s, env).0)
  {
    SetRangeKeeps(s, env.quiet);
    FormBatchKeeps(SetRecoveryRange(NoteQuiet(s, env.quiet)), env);
  }

  /** No business delivery is ever pending, so a claim forms a batch only when nothing is under way. */
  lemma ClaimKeeps(s: State, env: Env)
    requires Inv(s)
    ensures Inv(Claim(s, env).0)
  {
    match FirstLive(s.deliveries, 0)
    case None => ClaimNewKeeps(s, env);
    case Some(i) =>
      assert RowOk(s, s.deliveries[i]);
      ClaimUnderWayKeeps(s, i, env);
  }

  lemma IssueKeeps(s: State, i: nat, now: int)
    requires Inv(s) && i < |s.deliveries| && IsLive(s.deliveries[i].state)
    ensures Inv(Issue(s, i, now).0)
  {
    var taken := Mint(s).(device := s.device.(lastAttempt := Some(now), nextSend := Some(now + SEND_SLOT_INTERVAL_MS)));
    assert RowOk(s, s.deliveries[i]);
    PutKeeps(taken, i, s.deliveries[i].(permit := Some(s.minted)));
  }

  lemma ReleaseKeeps(s: State, i: nat, at: int)
    requires Inv(s) && i < |s.deliveries| && s.deliveries[i].state == Claimed
    ensures Inv(Release(s, i, at))
  {
    assert RowOk(s, s.deliveries[i]);
    PutKeeps(s, i, s.deliveries[i].(state := RetryWait, nextAttemptAt := Some(at)));
  }

  lemma RevalidateTestKeeps(s: State, i: nat, now: int)
    requires Inv(s) && i < |s.deliveries| && s.deliveries[i].state == Claimed
    ensures Inv(RevalidateTest(s, i, now).0)
  {
    if s.deliveries[i].permit.Some? {
    } else if SlotBusy(s.device, now) {
      ReleaseKeeps(s, i, now + Wait(s.device, now));
    } else {
      IssueKeeps(s, i, now);
    }
  }

  lemma RevalidateBatchKeeps(s: State, i: nat, env: Env)
    requires Inv(s) && i < |s.deliveries| && s.deliveries[i].state == Claimed
    ensures Inv(RevalidateBatch(s, i, env).0)
  {
    hide OneLive, NoDoubleSend, Sorted, RecoveryOk, SlotOk, StillWanted;
    var r := RevalidateBatch(s, i, env);
    match r.1
    case RetryLater(ms) => ReleaseKeeps(s, i, env.now + ms);
    case Cancel =>
      assert RowOk(s, s.deliveries[i]);
      PutKeeps(s, i, s.deliveries[i].(state := Suppressed));
    case Deliver(permit) =>
      if s.deliveries[i].permit.None? { IssueKeeps(s, i, env.now); }
  }

  lemma RevalidateKeeps(s: State, i: nat, token: nat, env: Env)
    requires Inv(s)
    ensures Inv(Revalidate(s, i, token, env).0)
  {
    if i < |s.deliveries| && s.deliveries[i].state == Claimed {
      assert RowOk(s, s.deliveries[i]);
      PutKeeps(s, i, s.deliveries[i].(state := Expired));
      RevalidateTestKeeps(s, i, env.now);
      RevalidateBatchKeeps(s, i, env);
    }
  }

  lemma ReportKeeps(s: State, i: nat, token: nat, result: ReportResult, cancelled: bool, now: int)
    requires Inv(s)
    ensures Inv(Report(s, i, token, result, cancelled, now))
  {
    var s' := Report(s, i, token, result, cancelled, now);
    if s' != s {
      assert RowOk(s, s.deliveries[i]);
      PutKeeps(s, i, s'.deliveries[i]);
    }
  }

  lemma TestKeeps(s: State, now: int)
    requires Inv(s)
    ensures Inv(Test(s, now).0)
  {
    var s' := Test(s, now).0;
    if |s'.deliveries| > |s.deliveries| { AppendKeeps(s.deliveries, s'.deliveries[|s.deliveries|]); }
  }

  lemma StepKeeps(s: State, step: Step)
    requires Inv(s)
    ensures Inv(Apply(s, step))
  {
    hide Claim, Revalidate, Report, Test;
    match step
    case DoClaim(env) => ClaimKeeps(s, env);
    case DoRevalidate(i, token, env) => RevalidateKeeps(s, i, token, env);
    case DoReport(i, token, result, cancelled, now) => ReportKeeps(s, i, token, result, cancelled, now);
    case DoTest(now) => TestKeeps(s, now);
    case Arrive(n) =>
    case Touch(row, read, action) =>
    case SwitchDevice(enabled) =>
    case Restart =>
  }

  /**
   * Every run: at most one delivery is under way, no notification is in two deliveries that are
   * under way or accepted, what is under way has attempts left and none exceeds three.
   */
  lemma {:induction false} RunKeeps(s: State, steps: seq<Step>)
    requires Fresh(s) || Inv(s)
    ensures Inv(Run(s, steps))
  {
    if steps != [] {
      RunKeeps(s, steps[..|steps| - 1]);
      StepKeeps(Run(s, steps[..|steps| - 1]), steps[|steps| - 1]);
    }
  }

  // ---- What no step undoes ----

  /** A row after more steps: terminal rows are frozen, a permit stays, a replaced token is a new one. */
  predicate RowFollows(d: Delivery, d': Delivery, minted: nat) {
    && d'.test == d.test && d'.items == d.items && d'.absoluteExpiresAt == d.absoluteExpiresAt
    && d.attempt <= d'.attempt
    && (!IsLive(d.state) ==> d' == d)
    && (d.permit.Some? ==> d'.permit == d.permit)
    && (d'.claimToken == d.claimToken || (d'.claimToken.Some? && d'.claimToken.value >= minted))
  }

  ghost predicate Follows(s: State, s': State) {
    && |s.deliveries| <= |s'.deliveries|
    && s.minted <= s'.minted
    && s.device.planned <= s'.device.planned
    && forall i :: 0 <= i < |s.deliveries| ==> RowFollows(s.deliveries[i], s'.deliveries[i], s.minted)
  }

  lemma ClaimFollows(s: State, env: Env)
    requires Inv(s)
    ensures Follows(s, Claim(s, env).0)
  {
    hide Follows, ClaimNew, ClaimUnderWay;
    NothingFollows(s);
    BatchFollows(s, env);
    if FirstLive(s.deliveries, 0).Some? {
      UnderWayFollows(s, FirstLive(s.deliveries, 0).value, env);
    }
  }

  lemma NothingFollows(s: State)
    ensures Follows(s, s)
  {
  }

  lemma UnderWayFollows(s: State, i: nat, env: Env)
    requires Inv(s) && i < |s.deliveries| && IsLive(s.deliveries[i].state)
    ensures Follows(s, ClaimUnderWay(s, i, env).0)
  {
    hide OneLive, NoDoubleSend, RecoveryOk;
    assert RowOk(s, s.deliveries[i]);
    var s' := ClaimUnderWay(s, i, env).0;
    assert RowFollows(s.deliveries[i], s'.deliveries[i], s.minted);
  }

  lemma BatchFollows(s: State, env: Env)
    ensures Follows(s, ClaimNew(s, env).0)
  {
    hide FormBatch;
    FormFollows(SetRecoveryRange(NoteQuiet(s, env.quiet)), env);
  }

  lemma FormFollows(s: State, env: Env)
    ensures Follows(s, FormBatch(s, env).0)
  {
    hide ScanWindow, Target;
  }

  lemma RevalidateFollows(s: State, i: nat, token: nat, env: Env)
    ensures Follows(s, Revalidate(s, i, token, env).0)
  {
    var s' := Revalidate(s, i, token, env).0;
    if i < |s.deliveries| {
      assert RowFollows(s.deliveries[i], s'.deliveries[i], s.minted);
      assert s'.deliveries == s.deliveries[i := s'.deliveries[i]];
    }
  }

  lemma StepFollows(s: State, step: Step)
    requires Inv(s)
    ensures Follows(s, Apply(s, step))
  {
    hide Claim, Revalidate, Report, Test, Inv;
    match step
    case DoClaim(env) => ClaimFollows(s, env);
    case DoRevalidate(i, token, env) => RevalidateFollows(s, i, token, env);
    case DoReport(i, token, result, cancelled, now) => ReportFollows(s, i, token, result, cancelled, now);
    case DoTest(now) => TestFollows(s, now);
    case Arrive(n) =>
    case Touch(row, read, action) =>
    case SwitchDevice(enabled) =>
    case Restart =>
  }

  lemma ReportFollows(s: State, i: nat, token: nat, result: ReportResult, cancelled: bool, now: int)
    ensures Follows(s, Report(s, i, token, result, cancelled, now))
  {
    var s' := Report(s, i, token, result, cancelled, now);
    if s' != s {
      assert RowFollows(s.deliveries[i], s'.deliveries[i], s.minted);
      assert s'.deliveries == s.deliveries[i := s'.deliveries[i]];
    }
  }

  lemma TestFollows(s: State, now: int)
    ensures Follows(s, Test(s, now).0)
  {
  }

  /**
   * However long the run: the planned ordinal never falls, a terminal delivery is never written
   * again, a permit once set never changes, and a claim token is only ever replaced by a new one.
   */
  lemma {:induction false} RunFollows(s: State, steps: seq<Step>)
    requires Inv(s)
    ensures Follows(s, Run(s, steps))
  {
    if steps != [] {
      var before := Run(s, steps[..|steps| - 1]);
      RunFollows(s, steps[..|steps| - 1]);
      RunKeeps(s, steps[..|steps| - 1]);
      StepFollows(before, steps[|steps| - 1]);
      FollowsTransitive(s, before, Run(s, steps));
    }
  }

  lemma FollowsTransitive(a: State, b: State, c: State)
    requires Follows(a, b) && Follows(b, c)
    ensures Follows(a, c)
  {
    forall i | 0 <= i < |a.deliveries|
      ensures RowFollows(a.deliveries[i], c.deliveries[i], a.minted)
    {
      assert RowFollows(a.deliveries[i], b.deliveries[i], a.minted);
      assert RowFollows(b.deliveries[i], c.deliveries[i], b.minted);
    }
  }

  /** Whoever holds a superseded claim token can no longer change anything, however the run goes on. */
  lemma SupersededTokenIsDead(s: State, steps: seq<Step>, i: nat, token: nat, env: Env, result: ReportResult, cancelled: bool)
    requires Inv(s) && i < |s.deliveries| && token < s.minted && s.deliveries[i].claimToken != Some(token)
    ensures var later := Run(s, steps);
            && Revalidate(later, i, token, env) == (later, Cancel)
            && Report(later, i, token, result, cancelled, env.now) == later
  {
    RunFollows(s, steps);
    assert RowFollows(s.deliveries[i], Run(s, steps).deliveries[i], s.minted);
  }

  /** Once a delivery was accepted, every other delivery of the same notification is over and unaccepted, for good. */
  lemma AcceptedOnce(s: State, steps: seq<Step>, i: nat, j: nat, n: nat)
    requires Inv(s) && i < |s.deliveries| && n in s.deliveries[i].items && s.deliveries[i].state == Accepted
    requires j < |Run(s, steps).deliveries| && j != i && n in Run(s, steps).deliveries[j].items
    ensures !LiveOrAccepted(Run(s, steps).deliveries[j].state)
  {
    RunKeeps(s, steps);
    RunFollows(s, steps);
    assert RowFollows(s.deliveries[i], Run(s, steps).deliveries[i], s.minted);
  }

  ghost predicate PassedOver(s: State, s': State, env: Env, n: Note) {
    || Classify(s.deliveries, n, env, false) == Skip
    || (|s'.deliveries| == |s.deliveries| + 1 && n.ordinal in s'.deliveries[|s.deliveries|].items)
  }

  lemma BatchJumpsNothing(s: State, env: Env, n: Note)
    requires Inv(s) && n in s.notes && WantsAttention(n)
    requires s.device.planned < n.ordinal <= FormBatch(s, env).0.device.planned
    ensures PassedOver(s, FormBatch(s, env).0, env, n)
  {
    NothingJumped(s, env, n);
  }

  lemma ClaimNewJumpsNothing(s: State, env: Env, n: Note)
    requires Inv(s) && n in s.notes && WantsAttention(n)
    requires s.device.planned < n.ordinal <= ClaimNew(s, env).0.device.planned
    ensures PassedOver(s, ClaimNew(s, env).0, env, n)
  {
    SetRangeKeeps(s, env.quiet);
    BatchJumpsNothing(SetRecoveryRange(NoteQuiet(s, env.quiet)), env, n);
  }

  lemma ClaimUnderWayPlans(s: State, i: nat, env: Env)
    requires Inv(s) && FirstLive(s.deliveries, 0) == Some(i)
    ensures Claim(s, env).0.device == s.device
  {
    assert RowOk(s, s.deliveries[i]);
  }

  /** A claim that moves the planned ordinal passed only what it skipped or put into the new delivery. */
  lemma ClaimJumpsNothing(s: State, env: Env, n: Note)
    requires Inv(s) && n in s.notes && WantsAttention(n)
    requires s.device.planned < n.ordinal <= Claim(s, env).0.device.planned
    ensures PassedOver(s, Claim(s, env).0, env, n)
  {
    if FirstLive(s.deliveries, 0).Some? {
      ClaimUnderWayPlans(s, FirstLive(s.deliveries, 0).value, env);
    } else {
      ClaimNewJumpsNothing(s, env, n);
    }
  }

  /** Only a claim moves the planned ordinal. */
  lemma OnlyClaimsPlan(s: State, step: Step)
    requires !step.DoClaim?
    ensures Apply(s, step).device.planned == s.device.planned
  {
  }

  // ---- How often a notification is attached ----

  ghost function Attached(ds: seq<Delivery>, n: nat): nat {
    if ds == [] then 0 else Attached(ds[..|ds| - 1], n) + (if n in ds[|ds| - 1].items then 1 else 0)
  }

  /** The step arms the recovery scan: quiet hours end, or the process starts again. */
  ghost predicate Arms(s: State, step: Step) {
    || step.Restart?
    || (step.DoClaim? && s.lastQuiet == Some(true) && Apply(s, step).lastQuiet == Some(false))
  }

  /** How often the recovery scan was armed, the construction of the scheduler included. */
  ghost function Armings(s: State, steps: seq<Step>): (a: nat)
    ensures a >= 1
  {
    if steps == [] then 1
    else
      var init := steps[..|steps| - 1];
      Armings(s, init) + (if Arms(Run(s, init), steps[|steps| - 1]) then 1 else 0)
  }

  /** What is attached so far, and what the present arming may add once the notification is planned. */
  ghost function Spent(s: State, n: nat): nat {
    Attached(s.deliveries, n) + (if s.armed && n <= s.device.planned then 1 else 0)
  }

  lemma {:induction false} SameItemsSameCount(ds: seq<Delivery>, ds': seq<Delivery>, n: nat)
    requires |ds| == |ds'| && forall i :: 0 <= i < |ds| ==> (n in ds[i].items) == (n in ds'[i].items)
    ensures Attached(ds, n) == Attached(ds', n)
  {
    if ds != [] {
      SameItemsSameCount(ds[..|ds| - 1], ds'[..|ds| - 1], n);
    }
  }

  lemma {:induction false} UnplannedUnattached(s: State, ds: seq<Delivery>, n: nat)
    requires forall d :: d in ds ==> RowOk(s, d)
    requires n > s.device.planned
    ensures Attached(ds, n) == 0
  {
    if ds != [] {
      assert ds[|ds| - 1] in ds;
      UnplannedUnattached(s, ds[..|ds| - 1], n);
    }
  }

  lemma AppendCounts(ds: seq<Delivery>, d: Delivery, n: nat)
    ensures Attached(ds + [d], n) == Attached(ds, n) + (if n in d.items then 1 else 0)
  {
    assert (ds + [d])[..|ds|] == ds;
  }

  /** A batch takes up a notification again only by using up the arming. */
  lemma FormBatchSpends(s: State, env: Env, n: nat, armings: nat)
    requires Inv(s) && Spent(s, n) <= armings && 1 <= armings
    ensures Spent(FormBatch(s, env).0, n) <= armings
  {
    var scan := ScanWindow(s, env);
    BatchItems(s, env);
    BatchPlans(s, env);
    if scan.candidates != [] {
      AppendCounts(s.deliveries, FormBatch(s, env).0.deliveries[|s.deliveries|], n);
      if n in Ordinals(scan.candidates) {
        var c :| c in scan.candidates && c.ordinal == n;
        if n <= s.device.planned {
          assert AllowRecovery(s, n) by { CandidateLooksBack(s, env, c); }
        } else {
          UnplannedUnattached(s, s.deliveries, n);
        }
      }
    }
  }

  lemma CandidateLooksBack(s: State, env: Env, c: Note)
    requires Inv(s) && c in ScanWindow(s, env).candidates && c.ordinal <= s.device.planned
    ensures AllowRecovery(s, c.ordinal)
  {
    BatchItems(s, env);
    OnlyRecoveryLooksBack(s, c.ordinal);
  }

  lemma ClaimNewSpends(s: State, env: Env, n: nat, armings: nat)
    requires Inv(s) && Spent(s, n) <= armings && 1 <= armings
    ensures Spent(ClaimNew(s, env).0, n) <= armings + (if s.lastQuiet == Some(true) && !env.quiet then 1 else 0)
  {
    var more := if s.lastQuiet == Some(true) && !env.quiet then 1 else 0;
    var noted := NoteQuiet(s, env.quiet);
    SetRangeKeeps(s, env.quiet);
    assert Spent(SetRecoveryRange(noted), n) <= armings + more;
    FormBatchSpends(SetRecoveryRange(noted), env, n, armings + more);
  }

  lemma ClaimUnderWaySpends(s: State, i: nat, env: Env, n: nat)
    requires i < |s.deliveries|
    ensures Spent(ClaimUnderWay(s, i, env).0, n) == Spent(s, n)
  {
    SameItemsSameCount(s.deliveries, ClaimUnderWay(s, i, env).0.deliveries, n);
  }

  lemma ClaimNewNotes(s: State, env: Env)
    ensures ClaimNew(s, env).0.lastQuiet == Some(env.quiet)
  {
    hide ScanWindow, Target;
  }

  lemma ClaimSpends(s: State, env: Env, n: nat, armings: nat)
    requires Inv(s) && Spent(s, n) <= armings && 1 <= armings
    ensures Spent(Claim(s, env).0, n) <= armings + (if Arms(s, DoClaim(env)) then 1 else 0)
  {
    if s.device.enabled && env.granted {
      match FirstLive(s.deliveries, 0)
      case None =>
        ClaimNewNotes(s, env);
        ClaimNewSpends(s, env, n, armings);
      case Some(i) =>
        assert RowOk(s, s.deliveries[i]);
        ClaimUnderWaySpends(s, i, env, n);
    }
  }

  lemma SameAttachments(s: State, step: Step, n: nat)
    requires step.DoRevalidate? || step.DoReport?
    ensures Spent(Apply(s, step), n) == Spent(s, n)
  {
    hide Attached;
    RowsAlike(s, step);
    hide Apply;
    SameItemsSameCount(s.deliveries, Apply(s, step).deliveries, n);
  }

  lemma RowsAlike(s: State, step: Step)
    requires step.DoRevalidate? || step.DoReport?
    ensures var s' := Apply(s, step);
            && s'.armed == s.armed && s'.device.planned == s.device.planned && |s'.deliveries| == |s.deliveries|
            && forall i :: 0 <= i < |s.deliveries| ==> s'.deliveries[i].items == s.deliveries[i].items
  {
  }

  lemma TestSpends(s: State, now: int, n: nat)
    ensures Spent(Test(s, now).0, n) == Spent(s, n)
  {
    if |Test(s, now).0.deliveries| > |s.deliveries| {
      AppendCounts(s.deliveries, Test(s, now).0.deliveries[|s.deliveries|], n);
    }
  }

  lemma StepSpends(s: State, step: Step, n: nat, armings: nat)
    requires Inv(s) && Spent(s, n) <= armings && 1 <= armings
    ensures Spent(Apply(s, step), n) <= armings + (if Arms(s, step) then 1 else 0)
  {
    match step
    case DoClaim(env) => ClaimSpends(s, env, n, armings);
    case DoRevalidate(i, token, env) => SameAttachments(s, step, n);
    case DoReport(i, token, result, cancelled, now) => SameAttachments(s, step, n);
    case DoTest(now) => TestSpends(s, now, n);
    case _ =>
  }

  /**
   * No run attaches a notification to more deliveries than the recovery scan was armed: the arming at
   * construction finds nothing planned, so the first batch to take it up is paid for by that one.
   */
  lemma {:induction false} AttachedAtMost(s: State, steps: seq<Step>, n: nat)
    requires Fresh(s)
    ensures Attached(Run(s, steps).deliveries, n) <= Spent(Run(s, steps), n) <= Armings(s, steps)
  {
    if steps != [] {
      var init := steps[..|steps| - 1];
      AttachedAtMost(s, init, n);
      RunKeeps(s, init);
      StepSpends(Run(s, init), steps[|steps| - 1], n, Armings(s, init));
    }
  }

  // ---- Permits and the send slot ----

  /** A permit as it was given out: when, and for which delivery. */
  datatype Issued = Issued(now: int, delivery: nat)

  ghost function FreshPermit(s: State, step: Step): Option<Issued> {
    if step.DoRevalidate? && Apply(s, step).minted > s.minted then Some(Issued(step.env.now, step.delivery)) else None
  }

  ghost function Permits(s: State, steps: seq<Step>): seq<Issued> {
    if steps == [] then []
    else
      var init := steps[..|steps| - 1];
      match FreshPermit(Run(s, init), steps[|steps| - 1])
      case None => Permits(s, init)
      case Some(p) => Permits(s, init) + [p]
  }

  /** A fresh permit waits for the slot, except a test's when the last attempt was at clock 0. */
  lemma FreshPermitSpaced(s: State, i: nat, token: nat, env: Env)
    requires Inv(s) && Revalidate(s, i, token, env).0.minted > s.minted
    ensures s.device.lastAttempt.Some? ==>
              env.now >= s.device.lastAttempt.value + SEND_SLOT_INTERVAL_MS || (s.device.lastAttempt.value == 0 && s.deliveries[i].test)
    ensures Revalidate(s, i, token, env).0.device.lastAttempt == Some(env.now)
    ensures Revalidate(s, i, token, env).0.deliveries[i].permit == Some(s.minted) && s.deliveries[i].permit.None?
  {
  }

  lemma ClaimKeepsSlot(s: State, env: Env)
    ensures Claim(s, env).0.device.lastAttempt == s.device.lastAttempt
  {
    hide ScanWindow, Target;
    match FirstLive(s.deliveries, 0)
    case None => BatchPlans(SetRecoveryRange(NoteQuiet(s, env.quiet)), env);
    case Some(i) =>
  }

  lemma NoPermitNoSlot(s: State, step: Step)
    requires FreshPermit(s, step).None?
    ensures Apply(s, step).device.lastAttempt == s.device.lastAttempt
  {
    match step
    case DoClaim(env) => ClaimKeepsSlot(s, env);
    case _ =>
  }

  ghost predicate Spaced(ps: seq<Issued>) {
    forall j, k :: 0 <= j < k < |ps| ==> ps[j].now + SEND_SLOT_INTERVAL_MS <= ps[k].now
  }

  ghost predicate RemembersLast(s: State, ps: seq<Issued>) {
    s.device.lastAttempt == if ps == [] then None else Some(ps[|ps| - 1].now)
  }

  /**
   * The step asks for a test's first permit, validly and within thirty seconds of clock 0, when the
   * last attempt was at clock 0.
   */
  predicate Slips(s: State, step: Step) {
    && step.DoRevalidate? && step.delivery < |s.deliveries|
    && var d := s.deliveries[step.delivery];
    && s.device.enabled && s.device.lastAttempt == Some(0)
    && d.test && d.permit.None? && d.state == Claimed && d.claimToken == Some(step.token)
    && step.env.now <= d.absoluteExpiresAt && step.env.now < SEND_SLOT_INTERVAL_MS
  }

  ghost predicate NeverSlips(s: State, steps: seq<Step>) {
    steps == [] || (NeverSlips(s, steps[..|steps| - 1]) && !Slips(Run(s, steps[..|steps| - 1]), steps[|steps| - 1]))
  }

  /**
   * Whatever the clock does, in every run: the device row remembers the last permit given out, and
   * any two permits, of tests and of notifications together, are thirty seconds apart exactly when
   * no step of the run slips through at clock 0.
   */
  lemma {:induction false} SpacedExactly(s: State, steps: seq<Step>)
    requires Fresh(s)
    ensures RemembersLast(Run(s, steps), Permits(s, steps))
    ensures Spaced(Permits(s, steps)) <==> NeverSlips(s, steps)
  {
    if steps != [] {
      var init := steps[..|steps| - 1];
      SpacedExactly(s, init);
      RunKeeps(s, init);
      PermitStep(Run(s, init), steps[|steps| - 1], Permits(s, init));
    }
  }

  ghost function Noted(s: State, step: Step, ps: seq<Issued>): seq<Issued> {
    match FreshPermit(s, step)
    case None => ps
    case Some(p) => ps + [p]
  }

  lemma PermitStep(s: State, step: Step, ps: seq<Issued>)
    requires Inv(s) && RemembersLast(s, ps)
    ensures RemembersLast(Apply(s, step), Noted(s, step, ps))
    ensures Spaced(Noted(s, step, ps)) <==> Spaced(ps) && !Slips(s, step)
  {
    if FreshPermit(s, step).None? {
      NoPermitNoSlot(s, step);
      if Slips(s, step) { TestPermitExactly(s, step.delivery, step.token, step.env); }
    } else {
      FreshPermitSpaced(s, step.delivery, step.token, step.env);
      SlipOrSpaced(s, step);
      OneMorePermit(ps, FreshPermit(s, step).value);
    }
  }

  /** A fresh permit keeps its distance from the last attempt unless its step slips through. */
  lemma SlipOrSpaced(s: State, step: Step)
    requires Inv(s) && FreshPermit(s, step).Some?
    ensures s.device.lastAttempt.Some? ==> (step.env.now < s.device.lastAttempt.value + SEND_SLOT_INTERVAL_MS <==> Slips(s, step))
  {
    FreshPermitSpaced(s, step.delivery, step.token, step.env);
    FreshPermitMeans(s, step.delivery, step.token, step.env);
  }

  lemma FreshPermitMeans(s: State, i: nat, token: nat, env: Env)
    requires Revalidate(s, i, token, env).0.minted > s.minted
    ensures i < |s.deliveries| && s.device.enabled && s.deliveries[i].permit.None? && s.deliveries[i].state == Claimed
    ensures s.deliveries[i].claimToken == Some(token) && env.now <= s.deliveries[i].absoluteExpiresAt
  {
  }

  lemma OneMorePermit(ps: seq<Issued>, p: Issued)
    ensures Spaced(ps + [p]) <==> Spaced(ps) && (ps == [] || ps[|ps| - 1].now + SEND_SLOT_INTERVAL_MS <= p.now)
  {
    var all := ps + [p];
    assert forall k :: 0 <= k < |ps| ==> all[k] == ps[k];
    assert all[|ps|] == p;
  }

  /** Exactly when a claimed test in time gets its first permit. */
  lemma TestPermitExactly(s: State, i: nat, token: nat, env: Env)
    requires Inv(s) && s.device.enabled && i < |s.deliveries| && s.deliveries[i].test && s.deliveries[i].permit.None?
    requires s.deliveries[i].state == Claimed && s.deliveries[i].claimToken == Some(token) && env.now <= s.deliveries[i].absoluteExpiresAt
    ensures FreshPermit(s, DoRevalidate(i, token, env)).Some? <==>
            s.device.lastAttempt.None? || s.device.lastAttempt.value == 0 || env.now >= s.device.lastAttempt.value + SEND_SLOT_INTERVAL_MS
  {
  }

  /** A `deliver` answer carries the row's own permit, in time, and only for what still wants showing. */
  lemma DeliverMeans(s: State, i: nat, token: nat, env: Env)
    requires Revalidate(s, i, token, env).1.Deliver?
    ensures var s' := Revalidate(s, i, token, env).0;
            && i < |s.deliveries| && |s'.deliveries| == |s.deliveries| && s.device.enabled
            && s.deliveries[i].state == Claimed && s'.deliveries[i].state == Claimed && s.deliveries[i].claimToken == Some(token)
            && env.now <= s.deliveries[i].absoluteExpiresAt
            && s'.deliveries[i].permit == Some(Revalidate(s, i, token, env).1.permit)
            && (!s.deliveries[i].test ==> !env.quiet && !SlotBusy(s.device, env.now) && StillWanted(s, s.deliveries[i].items))
  {
  }

  // ---- A clock that does not go back ----

  function Clock(step: Step): Option<int> {
    match step
    case DoClaim(env) => Some(env.now)
    case DoRevalidate(_, _, env) => Some(env.now)
    case DoReport(_, _, _, _, now) => Some(now)
    case DoTest(now) => Some(now)
    case _ => None
  }

  predicate Forward(steps: seq<Step>) {
    forall j, k :: 0 <= j < k < |steps| && Clock(steps[j]).Some? && Clock(steps[k]).Some? ==> Clock(steps[j]).value <= Clock(steps[k]).value
  }

  /** Rows that a step adds are tests only when a test was queued, a minute after the start of the clock or later. */
  lemma NewTest(s: State, step: Step, i: nat)
    requires s.lastTest >= 0 && Inv(s) && i < |Apply(s, step).deliveries| && Apply(s, step).deliveries[i].test
    ensures (i < |s.deliveries| && s.deliveries[i].test) || (step.DoTest? && step.now >= TEST_RATE_LIMIT_MS)
  {
    hide Claim, Revalidate, Report, Inv;
    if i < |s.deliveries| {
      StepFollows(s, step);
      assert RowFollows(s.deliveries[i], Apply(s, step).deliveries[i], s.minted);
    } else if step.DoClaim? {
      ClaimedRow(s, step.env);
    } else if step.DoRevalidate? || step.DoReport? {
      RowsAlike(s, step);
    }
  }

  /** A claim adds at most one row, and that is no test. */
  lemma ClaimedRow(s: State, env: Env)
    ensures var ds := Claim(s, env).0.deliveries;
            |ds| == |s.deliveries| || (|ds| == |s.deliveries| + 1 && !ds[|s.deliveries|].test)
  {
    hide ScanWindow, Target, FirstLive;
  }

  lemma LastTestStays(s: State, step: Step)
    requires s.lastTest >= 0
    ensures Apply(s, step).lastTest >= 0
  {
    hide ScanWindow, Target;
  }

  /** Every test of a run was queued in it, with the clock at a minute or later. */
  lemma {:induction false} TestWasQueued(s: State, steps: seq<Step>, i: nat) returns (k: nat)
    requires Fresh(s) && i < |Run(s, steps).deliveries| && Run(s, steps).deliveries[i].test
    ensures k < |steps| && steps[k].DoTest? && steps[k].now >= TEST_RATE_LIMIT_MS
  {
    var init, step := steps[..|steps| - 1], steps[|steps| - 1];
    RunKeeps(s, init);
    LastTestIn(s, init);
    NewTest(Run(s, init), step, i);
    hide Apply, Inv;
    if step.DoTest? && step.now >= TEST_RATE_LIMIT_MS {
      k := |steps| - 1;
    } else {
      k := TestWasQueued(s, init, i);
    }
  }

  lemma {:induction false} LastTestIn(s: State, steps: seq<Step>)
    requires Fresh(s)
    ensures Run(s, steps).lastTest >= 0
  {
    if steps != [] {
      LastTestIn(s, steps[..|steps| - 1]);
      LastTestStays(Run(s, steps[..|steps| - 1]), steps[|steps| - 1]);
    }
  }

  /** With a clock that does not go back no step slips, since no test is asked about before a minute. */
  lemma {:induction false} ForwardNeverSlips(s: State, steps: seq<Step>)
    requires Fresh(s) && Forward(steps)
    ensures NeverSlips(s, steps)
  {
    if steps != [] {
      var init, step := steps[..|steps| - 1], steps[|steps| - 1];
      ForwardNeverSlips(s, init);
      var before := Run(s, init);
      if step.DoRevalidate? && step.delivery < |before.deliveries| && before.deliveries[step.delivery].test {
        var k := TestWasQueued(s, init, step.delivery);
        assert Clock(steps[k]).value <= Clock(step).value;
      }
    }
  }

  /** Test and business deliveries together: any two permits of a run are thirty seconds apart. */
  lemma PermitsSpaced(s: State, steps: seq<Step>)
    requires Fresh(s) && Forward(steps)
    ensures RemembersLast(Run(s, steps), Permits(s, steps)) && Spaced(Permits(s, steps))
  {
    ForwardNeverSlips(s, steps);
    SpacedExactly(s, steps);
  }

  lemma RunLast(s: State, steps: seq<Step>, step: Step)
    ensures Run(s, steps + [step]) == Apply(Run(s, steps), step)
    ensures Permits(s, steps + [step]) == Noted(Run(s, steps), step, Permits(s, steps))
  {
    assert (steps + [step])[..|steps|] == steps;
  }

  // ---- A clock that does ----

  /** A test delivery, some way through its life. */
  function TestRow(state: DeliveryState, queuedAt: int, attempt: nat, token: Option<nat>, claimedAt: int, permit: Option<nat>): Delivery {
    Delivery(
      true, state, attempt, Some(queuedAt), queuedAt + DELIVERY_ABSOLUTE_DEADLINE_MS,
      token, if token.Some? then Some(claimedAt + CLAIM_LEASE_MS) else None, permit, {})
  }

  function Granted(now: int): Env {
    Env(now, true, false, {}, {}, {})
  }

  function After(rows: seq<Delivery>, lastAttempt: Option<int>, minted: nat, lastTest: int): State {
    State(
      [], rows, Device(true, 0, lastAttempt, if lastAttempt.Some? then Some(lastAttempt.value + SEND_SLOT_INTERVAL_MS) else None),
      minted, lastTest, true, None, None, None)
  }

  /** A first test, queued at a minute, gets its permit when the clock has gone back to 0, and is accepted. */
  lemma FirstTest() returns (steps: seq<Step>)
    ensures Fresh(After([], None, 0, 0))
    ensures Run(After([], None, 0, 0), steps) == After([TestRow(Accepted, 60_000, 1, Some(0), 0, Some(1))], Some(0), 2, 60_000)
    ensures Permits(After([], None, 0, 0), steps) == [Issued(0, 0)]
    ensures |steps| == 4 && steps[0] == DoTest(60_000) && steps[1] == DoClaim(Granted(0))
  {
    var s := After([], None, 0, 0);
    var queued := After([TestRow(Pending, 60_000, 0, None, 0, None)], None, 0, 60_000);
    var claimed := After([TestRow(Claimed, 60_000, 0, Some(0), 0, None)], None, 1, 60_000);
    var permitted := After([TestRow(Claimed, 60_000, 0, Some(0), 0, Some(1))], Some(0), 2, 60_000);
    var accepted := After([TestRow(Accepted, 60_000, 1, Some(0), 0, Some(1))], Some(0), 2, 60_000);
    var a, b, c, d := DoTest(60_000), DoClaim(Granted(0)), DoRevalidate(0, 0, Granted(0)), DoReport(0, 0, ReportAccepted, false, 0);
    assert Apply(s, a) == queued;
    assert Apply(queued, b) == claimed;
    assert Apply(claimed, c) == permitted && FreshPermit(claimed, c) == Some(Issued(0, 0));
    assert Apply(permitted, d) == accepted;
    steps := [] + [a] + [b] + [c] + [d];
    hide Apply;
    RunLast(s, [], a);
    RunLast(s, [] + [a], b);
    RunLast(s, [] + [a] + [b], c);
    RunLast(s, [] + [a] + [b] + [c], d);
  }

  /** A second test, queued at two minutes, is let through when the clock stands at one second. */
  lemma SecondTest(accepted: State, a: Step, b: Step, c: Step)
    requires accepted == After([TestRow(Accepted, 60_000, 1, Some(0), 0, Some(1))], Some(0), 2, 60_000)
    requires a == DoTest(120_000) && b == DoClaim(Granted(1_000)) && c == DoRevalidate(1, 2, Granted(1_000))
    ensures FreshPermit(accepted, a).None? && FreshPermit(Apply(accepted, a), b).None?
    ensures FreshPermit(Apply(Apply(accepted, a), b), c) == Some(Issued(1_000, 1))
  {
    var done := TestRow(Accepted, 60_000, 1, Some(0), 0, Some(1));
    var queued := After([done, TestRow(Pending, 120_000, 0, None, 0, None)], Some(0), 2, 120_000);
    var claimed := After([done, TestRow(Claimed, 120_000, 0, Some(2), 1_000, None)], Some(0), 3, 120_000);
    assert Apply(accepted, a) == queued;
    assert Apply(queued, b) == claimed;
  }

  /**
   * A run whose clock goes back to 0 for the first test's permit: the second test gets its own one
   * second later.
   */
  lemma ClockSetBack() returns (s: State, steps: seq<Step>)
    ensures Fresh(s) && Permits(s, steps) == [Issued(0, 0), Issued(1_000, 1)]
    ensures !Spaced(Permits(s, steps)) && !Forward(steps)
  {
    hide Apply, Run, Permits, FreshPermit;
    s := After([], None, 0, 0);
    var first := FirstTest();
    var a, b, c := DoTest(120_000), DoClaim(Granted(1_000)), DoRevalidate(1, 2, Granted(1_000));
    SecondTest(Run(s, first), a, b, c);
    steps := first + [a] + [b] + [c];
    RunLast(s, first, a);
    RunLast(s, first + [a], b);
    RunLast(s, first + [a] + [b], c);
    var ps := Permits(s, steps);
    assert ps[0] == Issued(0, 0) && ps[1] == Issued(1_000, 1);
    assert Clock(steps[0]) == Some(60_000) && Clock(steps[1]) == Some(0);
  }
}
