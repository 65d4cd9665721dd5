/**
 * The scheduler as an object: the rows and its own recovery marks are fields its calls rewrite.
 * Each call is proved to leave the fields, and to answer, as its specification function says.
 */
module NotificationScheduler {
  import opened Wrappers
  import opened Notifications

  class NotificationDeliveryScheduler {
    var notes: seq<Note>
    var deliveries: seq<Delivery>
    var device: Device
    var minted: nat
    var lastTest: int
    var recoveryArmed: bool
    var recoveryFloor: Option<Bound>
    var recoveryCeiling: Option<nat>
    var lastQuiet: Option<bool>

    ghost function Value(): State
      reads this
    {
      State(notes, deliveries, device, minted, lastTest, recoveryArmed, recoveryFloor, recoveryCeiling, lastQuiet)
    }

    /** A new process over the rows an earlier one left. */
    constructor (notes: seq<Note>, deliveries: seq<Delivery>, device: Device, minted: nat)
      ensures Value() == State(notes, deliveries, device, minted, 0, true, None, None, None)
    {
      this.notes, this.deliveries, this.device, this.minted := notes, deliveries, device, minted;
      lastTest, recoveryArmed, recoveryFloor, recoveryCeiling, lastQuiet := 0, true, None, None, None;
    }

    method Ulid() returns (id: nat)
      modifies this`minted
      ensures id == old(minted) && minted == old(minted) + 1
    {
      id := minted;
      minted := minted + 1;
    }

    method NoteQuietTransition(isQuiet: bool)
      modifies this`recoveryArmed, this`recoveryFloor, this`recoveryCeiling, this`lastQuiet
      ensures Value() == NoteQuiet(old(Value()), isQuiet)
    {
      if lastQuiet == Some(true) && !isQuiet {
        recoveryArmed := true;
        recoveryFloor := None;
        recoveryCeiling := None;
      }
      lastQuiet := Some(isQuiet);
    }

    method ConsumeTheRecovery()
      modifies this`recoveryArmed, this`recoveryFloor, this`recoveryCeiling
      ensures Value() == ConsumeRecovery(old(Value()))
    {
      recoveryArmed := false;
      recoveryFloor := None;
      recoveryCeiling := None;
    }

    method ItemDisposition(ordinal: nat) returns (r: Disposition)
      ensures r == DispositionOf(deliveries, ordinal)
    {
      var live, accepted, terminalAlert := false, false, false;
      for k := 0 to |deliveries|
        invariant live <==> exists i :: 0 <= i < k && ordinal in deliveries[i].items && IsLive(deliveries[i].state)
        invariant accepted <==> exists i :: 0 <= i < k && ordinal in deliveries[i].items && deliveries[i].state == Accepted
        invariant terminalAlert <==> exists i :: 0 <= i < k && ordinal in deliveries[i].items && deliveries[i].state in {Failed, Expired, Unknown}
      {
        if ordinal in deliveries[k].items {
          var st := deliveries[k].state;
          if st == Pending || st == Claimed || st == RetryWait {
            live := true;
          } else if st == Accepted {
            accepted := true;
          } else if st == Failed || st == Expired || st == Unknown {
            terminalAlert := true;
          }
        }
      }
      r := Disposition(live, accepted, terminalAlert);
    }

    method ClassifyDesktopCandidate(row: Note, env: Env, allowRecovery: bool) returns (verdict: Verdict)
      ensures verdict == Classify(deliveries, row, env, allowRecovery)
    {
      if row.kind !in env.categories { return Skip; }
      if row.kind in {Reply, RoutineResult} && row.session.Some? {
        if row.session.value in env.muted { return Skip; }
      }
      var isForeground := row.session.Some? && row.session.value in env.foreground;
      if isForeground || env.now - row.createdAt < BATCHING_WINDOW_MS { return Defer; }
      if row.action == NoAction && env.now - row.createdAt > DELIVERY_ABSOLUTE_DEADLINE_MS { return Skip; }
      var disposition := ItemDisposition(row.ordinal);
      if disposition.live || disposition.accepted { return Skip; }
      if disposition.terminalAlert {
        if !allowRecovery || row.action != Open || row.read { return Skip; }
      }
      return Ready;
    }

    method ScanForBatch(rows: seq<Note>, env: Env) returns (scan: Scan)
      ensures scan == ScanRows(Value(), env, rows, Start(device.planned))
    {
      var candidates: seq<Note> := [];
      var minDeferredOrdinal: Option<nat> := None;
      var watermark := device.planned;
      var recoveryDeferred, includedRecovery := false, false;
      ghost var whole := ScanRows(Value(), env, rows, Start(device.planned));
      var i, stopped := 0, false;
      while i < |rows| && !stopped
        invariant i <= |rows|
        invariant var acc := Scan(candidates, minDeferredOrdinal, watermark, recoveryDeferred, includedRecovery);
                  whole == if stopped then acc else ScanRows(Value(), env, rows[i..], acc)
        invariant !stopped ==> minDeferredOrdinal.None?
        decreases |rows| - i, !stopped
      {
        var row := rows[i];
        assert rows[i..][1..] == rows[i + 1..];
        var allowRecovery := AllowRecovery(State(notes, deliveries, device, minted, lastTest, recoveryArmed, recoveryFloor, recoveryCeiling, lastQuiet), row.ordinal);
        var verdict := ClassifyDesktopCandidate(row, env, allowRecovery);
        if verdict == Defer {
          if allowRecovery { recoveryDeferred := true; }
          minDeferredOrdinal := Some(row.ordinal);
          stopped := true;
        } else if verdict == Skip {
          watermark := row.ordinal;
          i := i + 1;
        } else {
          if allowRecovery { includedRecovery := true; }
          if |candidates| < BATCH_ITEM_LIMIT {
            candidates := candidates + [row];
            i := i + 1;
          } else if !allowRecovery {
            stopped := true;
          } else {
            i := i + 1;
          }
        }
      }
      scan := Scan(candidates, minDeferredOrdinal, watermark, recoveryDeferred, includedRecovery);
    }

    method FormTheBatch(env: Env) returns (lease: Option<Lease>)
      modifies this
      ensures (Value(), lease) == FormBatch(old(Value()), env)
    {
      var scanStart := ScanFrom(State(notes, deliveries, device, minted, lastTest, recoveryArmed, recoveryFloor, recoveryCeiling, lastQuiet));
      var scan := ScanForBatch(AttentionWindow(notes, scanStart), env);
      var targetOrdinal := Target(scan);
      if scan.candidates == [] {
        if targetOrdinal > device.planned { device := device.(planned := targetOrdinal); }
        if !scan.recoveryDeferred { ConsumeTheRecovery(); }
        return None;
      }
      var claimToken := Ulid();
      var batch := Delivery(
        false, Claimed, 0, Some(env.now), env.now + DELIVERY_ABSOLUTE_DEADLINE_MS,
        Some(claimToken), Some(env.now + CLAIM_LEASE_MS), None, Ordinals(scan.candidates));
      lease := Some(Lease(|deliveries|, claimToken, env.now + CLAIM_LEASE_MS));
      deliveries := deliveries + [batch];
      if targetOrdinal > device.planned { device := device.(planned := targetOrdinal); }
      if scan.includedRecovery || !scan.recoveryDeferred { ConsumeTheRecovery(); }
    }

    method ClaimTheRow(i: nat, now: int) returns (lease: Option<Lease>)
      requires i < |deliveries|
      modifies this
      ensures (Value(), lease) == Reclaim(old(Value()), i, now)
    {
      if SlotBusy(device, now) { return None; }
      var token := Ulid();
      deliveries := deliveries[i := deliveries[i].(state := Claimed, claimToken := Some(token), claimExpiresAt := Some(now + CLAIM_LEASE_MS))];
      lease := Some(Lease(i, token, now + CLAIM_LEASE_MS));
    }

    method ClaimActive(i: nat, env: Env) returns (lease: Option<Lease>)
      requires i < |deliveries|
      modifies this
      ensures (Value(), lease) == ClaimUnderWay(old(Value()), i, env)
    {
      var active := deliveries[i];
      if active.state == Claimed {
        if env.now < active.claimExpiresAt.GetOr(0) { return None; }
        if env.now >= active.absoluteExpiresAt {
          active := active.(state := Expired);
        } else if active.permit.None? {
          active := active.(state := RetryWait, nextAttemptAt := Some(env.now));
        } else {
          var nextAttempt := active.attempt + 1;
          var nextState := if nextAttempt >= MAX_DELIVERY_ATTEMPTS then Failed else RetryWait;
          active := active.(state := nextState, attempt := nextAttempt, nextAttemptAt := Some(env.now + (if nextAttempt == 1 then 5_000 else 20_000)));
        }
        deliveries := deliveries[i := active];
        return None;
      }
      if active.state == RetryWait {
        if env.now >= active.absoluteExpiresAt {
          deliveries := deliveries[i := active.(state := Expired)];
          return None;
        }
        if env.quiet { return None; }
        if env.now < active.nextAttemptAt.GetOr(0) { return None; }
      }
      lease := ClaimTheRow(i, env.now);
    }

    method ClaimDesktop(env: Env) returns (lease: Option<Lease>)
      modifies this
      ensures (Value(), lease) == Claim(old(Value()), env)
    {
      if !device.enabled || !env.granted { return None; }
      var active := FirstLive(deliveries, 0);
      if active.Some? && !(deliveries[active.value].state == Pending && !deliveries[active.value].test) {
        lease := ClaimActive(active.value, env);
        return;
      }
      NoteQuietTransition(env.quiet);
      if env.quiet { return None; }
      if SlotBusy(device, env.now) { return None; }
      if recoveryArmed && recoveryCeiling.None? {
        recoveryFloor := Some(OldestOpen(notes));
        recoveryCeiling := Some(device.planned);
      }
      lease := FormTheBatch(env);
    }

    method IssuePermit(i: nat, now: int) returns (answer: RevalidateAnswer)
      requires i < |deliveries|
      modifies this
      ensures (Value(), answer) == Issue(old(Value()), i, now)
    {
      var permit := Ulid();
      device := device.(lastAttempt := Some(now), nextSend := Some(now + SEND_SLOT_INTERVAL_MS));
      deliveries := deliveries[i := deliveries[i].(permit := Some(permit))];
      answer := Deliver(permit);
    }

    method ReleaseClaimToRetryWait(i: nat, at: int)
      requires i < |deliveries|
      modifies this`deliveries
      ensures Value() == Release(old(Value()), i, at)
    {
      deliveries := deliveries[i := deliveries[i].(state := RetryWait, nextAttemptAt := Some(at))];
    }

    method RevalidateDesktop(i: nat, token: nat, env: Env) returns (answer: RevalidateAnswer)
      modifies this
      ensures (Value(), answer) == Revalidate(old(Value()), i, token, env)
    {
      if i >= |deliveries| || deliveries[i].claimToken != Some(token) { return Cancel; }
      var delivery := deliveries[i];
      if delivery.state != Claimed { return Cancel; }
      if env.now > delivery.absoluteExpiresAt {
        deliveries := deliveries[i := delivery.(state := Expired)];
        return Cancel;
      }
      if !device.enabled { return Cancel; }
      if delivery.test {
        if delivery.permit.Some? { return Deliver(delivery.permit.value); }
        if SlotBusy(device, env.now) {
          var retryAfterMs := Wait(device, env.now);
          ReleaseClaimToRetryWait(i, env.now + retryAfterMs);
          return RetryLater(retryAfterMs);
        }
        answer := IssuePermit(i, env.now);
        return;
      }
      if env.quiet {
        ReleaseClaimToRetryWait(i, env.now + 60_000);
        return RetryLater(60_000);
      }
      if SlotBusy(device, env.now) {
        var retryAfterMs := Wait(device, env.now);
        ReleaseClaimToRetryWait(i, env.now + retryAfterMs);
        return RetryLater(retryAfterMs);
      }
      var wanted := AnyStillWanted(delivery.items);
      if !wanted {
        deliveries := deliveries[i := delivery.(state := Suppressed)];
        return Cancel;
      }
      if delivery.permit.Some? { return Deliver(delivery.permit.value); }
      if device.lastAttempt.Some? && !(device.nextSend.Some? && env.now >= device.nextSend.value) {
        var left := device.nextSend.GetOr(env.now) - env.now;
        var retryAfterMs := if left > 1_000 then left else 1_000;
        ReleaseClaimToRetryWait(i, env.now + retryAfterMs);
        return RetryLater(retryAfterMs);
      }
      answer := IssuePermit(i, env.now);
    }

    method AnyStillWanted(items: set<nat>) returns (wanted: bool)
      ensures wanted == StillWanted(Value(), items)
    {
      wanted := false;
      for k := 0 to |notes|
        invariant wanted <==> exists i :: 0 <= i < k && notes[i].ordinal in items && WantsAttention(notes[i])
      {
        if notes[k].ordinal in items && WantsAttention(notes[k]) { wanted := true; }
      }
    }

    method ReportDesktop(i: nat, token: nat, result: ReportResult, cancelled: bool, now: int)
      modifies this`deliveries
      ensures Value() == Report(old(Value()), i, token, result, cancelled, now)
    {
      if i >= |deliveries| || deliveries[i].claimToken != Some(token) || deliveries[i].state != Claimed { return; }
      var delivery := deliveries[i];
      var nextAttempt := delivery.attempt + 1;
      if result == ReportAccepted {
        delivery := delivery.(state := Accepted, attempt := nextAttempt);
      } else {
        var isFailed := nextAttempt >= MAX_DELIVERY_ATTEMPTS || now >= delivery.absoluteExpiresAt;
        var nextState := if cancelled then Suppressed
                         else if isFailed then (if result == ReportUnknown then Unknown else Failed)
                         else RetryWait;
        var nextAttemptAt := if cancelled || isFailed then None else Some(now + (if nextAttempt == 1 then 5_000 else 20_000));
        delivery := delivery.(state := nextState, attempt := nextAttempt, nextAttemptAt := nextAttemptAt);
      }
      deliveries := deliveries[i := delivery];
    }

    method TestDesktop(now: int) returns (answer: TestAnswer)
      modifies this`lastTest, this`deliveries
      ensures (Value(), answer) == Test(old(Value()), now)
    {
      if now - lastTest < TEST_RATE_LIMIT_MS { return RateLimited; }
      lastTest := now;
      if !device.enabled { return DeviceDisabled; }
      if FirstLive(deliveries, 0).Some? { return DeliveryBusy; }
      deliveries := deliveries + [Delivery(true, Pending, 0, Some(now), now + DELIVERY_ABSOLUTE_DEADLINE_MS, None, None, None, {})];
      return Queued;
    }
  }
}
