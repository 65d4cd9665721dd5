/**
 * Desktop notification delivery: the rows the scheduler reads and writes, and what each of its
 * operations does to them.
 *
 * A notification is named by its ordinal, which the store's counter never gives twice. A delivery
 * is named by its place in the table, since rows are only ever inserted (retention is left out).
 * `ulid()` draws the next number of a counter, so claim tokens and permits are never drawn twice.
 */
module Notifications {
  import opened Wrappers

  const BATCHING_WINDOW_MS := 2_000
  const SEND_SLOT_INTERVAL_MS := 30_000
  const CLAIM_LEASE_MS := 10_000
  const DELIVERY_ABSOLUTE_DEADLINE_MS := 120_000
  const MAX_DELIVERY_ATTEMPTS: nat := 3
  const TEST_RATE_LIMIT_MS := 60_000
  const BATCH_ITEM_LIMIT: nat := 100
  const CANDIDATE_SCAN_LIMIT: nat := 200

  datatype Kind = Approval | Ask | Failure | Interrupted | Reply | RoutineResult

  datatype ActionState = NoAction | Open | Resolved | Voided

  datatype Note = Note(ordinal: nat, kind: Kind, session: Option<string>, createdAt: int, read: bool, action: ActionState)

  datatype DeliveryState = Pending | Claimed | RetryWait | Accepted | Failed | Expired | Unknown | Suppressed

  /** `test` says that the batch key starts with `test:`; `items` holds ordinals. */
  datatype Delivery = Delivery(
    test: bool, state: DeliveryState, attempt: nat, nextAttemptAt: Option<int>, absoluteExpiresAt: int,
    claimToken: Option<nat>, claimExpiresAt: Option<int>, permit: Option<nat>, items: set<nat>)

  /** The `desktop` row; a row that does not exist yet reads the same as one that is not enabled. */
  datatype Device = Device(enabled: bool, planned: nat, lastAttempt: Option<int>, nextSend: Option<int>)

  datatype Bound = Infinite | At(ordinal: nat)

  datatype State = State(
    notes: seq<Note>, deliveries: seq<Delivery>, device: Device, minted: nat,
    lastTest: int, armed: bool, floor: Option<Bound>, ceiling: Option<nat>, lastQuiet: Option<bool>)

  /** What a call sees of the world outside the rows: the clock, the policy, the sessions on screen. */
  datatype Env = Env(now: int, granted: bool, quiet: bool, categories: set<Kind>, muted: set<string>, foreground: set<string>)

  datatype Lease = Lease(delivery: nat, token: nat, expiresAt: int)

  datatype RevalidateAnswer = Cancel | RetryLater(ms: int) | Deliver(permit: nat)

  datatype TestAnswer = Queued | RateLimited | DeviceDisabled | DeliveryBusy

  datatype ReportResult = ReportAccepted | ReportFailed | ReportUnknown

  // ---- Rows ----

  predicate IsLive(st: DeliveryState) {
    st in {Pending, Claimed, RetryWait}
  }

  /** The first delivery still under way, at `from` or after. */
  function FirstLive(ds: seq<Delivery>, from: nat): (r: Option<nat>)
    ensures r.Some? ==> from <= r.value < |ds| && IsLive(ds[r.value].state)
    ensures r.Some? ==> forall i :: from <= i < r.value ==> !IsLive(ds[i].state)
    ensures r.None? ==> forall i :: from <= i < |ds| ==> !IsLive(ds[i].state)
    decreases |ds| - from
  {
    if from >= |ds| then None
    else if IsLive(ds[from].state) then Some(from)
    else FirstLive(ds, from + 1)
  }

  /** The shared send slot is taken; JavaScript reads a last attempt at 0 as none. */
  predicate SlotBusy(dev: Device, now: int) {
    dev.lastAttempt.Some? && dev.lastAttempt.value != 0 && now < dev.nextSend.GetOr(0)
  }

  predicate WantsAttention(n: Note) {
    !n.read || n.action == Open
  }

  /** The notifications wanting attention from `start` on, in table order. */
  function Attention(notes: seq<Note>, start: int): (r: seq<Note>)
    ensures |r| <= |notes|
    ensures forall n :: n in r <==> n in notes && n.ordinal >= start && WantsAttention(n)
  {
    if notes == [] then []
    else
      assert notes == [notes[0]] + notes[1..];
      var rest := Attention(notes[1..], start);
      if notes[0].ordinal >= start && WantsAttention(notes[0]) then [notes[0]] + rest else rest
  }

  function AttentionWindow(notes: seq<Note>, start: int): seq<Note> {
    var all := Attention(notes, start);
    if |all| <= CANDIDATE_SCAN_LIMIT then all else all[..CANDIDATE_SCAN_LIMIT]
  }

  /** The least ordinal of an open and unread notification; `MIN` over no row reads as infinity. */
  function OldestOpen(notes: seq<Note>): Bound {
    if notes == [] then Infinite
    else
      var rest := OldestOpen(notes[1..]);
      if notes[0].action == Open && !notes[0].read && (rest.Infinite? || notes[0].ordinal <= rest.ordinal)
      then At(notes[0].ordinal) else rest
  }

  // ---- Classifying one notification ----

  datatype Disposition = Disposition(live: bool, accepted: bool, terminalAlert: bool)

  ghost function DispositionOf(ds: seq<Delivery>, ordinal: nat): Disposition {
    Disposition(
      exists i :: 0 <= i < |ds| && ordinal in ds[i].items && IsLive(ds[i].state),
      exists i :: 0 <= i < |ds| && ordinal in ds[i].items && ds[i].state == Accepted,
      exists i :: 0 <= i < |ds| && ordinal in ds[i].items && ds[i].state in {Failed, Expired, Unknown})
  }

  datatype Verdict = Skip | Defer | Ready

  ghost function Classify(ds: seq<Delivery>, n: Note, env: Env, allowRecovery: bool): Verdict {
    var d := DispositionOf(ds, n.ordinal);
    if n.kind !in env.categories then Skip
    else if n.kind in {Reply, RoutineResult} && n.session.Some? && n.session.value in env.muted then Skip
    else if (n.session.Some? && n.session.value in env.foreground) || env.now - n.createdAt < BATCHING_WINDOW_MS then Defer
    else if n.action == NoAction && env.now - n.createdAt > DELIVERY_ABSOLUTE_DEADLINE_MS then Skip
    else if d.live || d.accepted then Skip
    else if d.terminalAlert && (!allowRecovery || n.action != Open || n.read) then Skip
    else Ready
  }

  predicate AllowRecovery(s: State, ordinal: nat) {
    && s.armed && s.ceiling.Some? && s.floor.Some?
    && s.floor.value.At? && s.floor.value.ordinal <= ordinal <= s.ceiling.value
  }

  // ---- Scanning the window for a batch ----

  datatype Scan = Scan(candidates: seq<Note>, deferredAt: Option<nat>, watermark: nat, recoveryDeferred: bool, includedRecovery: bool)

  ghost function ScanRows(s: State, env: Env, rows: seq<Note>, acc: Scan): Scan
    decreases |rows|
  {
    if rows == [] then acc
    else
      var row := rows[0];
      var allow := AllowRecovery(s, row.ordinal);
      match Classify(s.deliveries, row, env, allow)
      case Defer => acc.(deferredAt := Some(row.ordinal), recoveryDeferred := acc.recoveryDeferred || allow)
      case Skip => ScanRows(s, env, rows[1..], acc.(watermark := row.ordinal))
      case Ready =>
        var next := acc.(includedRecovery := acc.includedRecovery || allow);
        if |acc.candidates| < BATCH_ITEM_LIMIT then ScanRows(s, env, rows[1..], next.(candidates := acc.candidates + [row]))
        else if allow then ScanRows(s, env, rows[1..], next)
        else next
  }

  function Start(planned: nat): Scan {
    Scan([], None, planned, false, false)
  }

  function Ordinals(notes: seq<Note>): set<nat> {
    set n | n in notes :: n.ordinal
  }

  function MaxOrdinal(notes: seq<Note>, atLeast: nat): (m: nat)
    ensures m >= atLeast
    ensures forall n :: n in notes ==> n.ordinal <= m
    ensures m == atLeast || m in Ordinals(notes)
  {
    if notes == [] then atLeast
    else
      var n := notes[|notes| - 1];
      var rest := MaxOrdinal(notes[..|notes| - 1], atLeast);
      assert notes == notes[..|notes| - 1] + [n];
      if n.ordinal > rest then n.ordinal else rest
  }

  /** Where the watermark lands: past what the scan settled, never past a deferred notification. */
  function Target(scan: Scan): int {
    var top := MaxOrdinal(scan.candidates, scan.watermark);
    if scan.deferredAt.Some? && scan.deferredAt.value - 1 < top then scan.deferredAt.value - 1 else top
  }

  // ---- Claiming ----

  function NoteQuiet(s: State, quiet: bool): State {
    if s.lastQuiet == Some(true) && !quiet then s.(armed := true, floor := None, ceiling := None, lastQuiet := Some(quiet))
    else s.(lastQuiet := Some(quiet))
  }

  function SetRecoveryRange(s: State): State {
    if s.armed && s.ceiling.None? then s.(floor := Some(OldestOpen(s.notes)), ceiling := Some(s.device.planned)) else s
  }

  function ScanFrom(s: State): nat {
    var after := s.device.planned + 1;
    var first := if s.armed && s.floor.Some? && s.floor.value.At? && s.floor.value.ordinal < after then s.floor.value.ordinal else after;
    if first < 1 then 1 else first
  }

  function ConsumeRecovery(s: State): State {
    s.(armed := false, floor := None, ceiling := None)
  }

  function Advance(s: State, target: int): State {
    if target > s.device.planned then s.(device := s.device.(planned := target)) else s
  }

  function Put(s: State, i: nat, d: Delivery): State
    requires i < |s.deliveries|
  {
    s.(deliveries := s.deliveries[i := d])
  }

  function Mint(s: State): State {
    s.(minted := s.minted + 1)
  }

  /** A claim whose lease ran out: only one that held a permit counts as an attempt. */
  function Lapsed(d: Delivery, now: int): Delivery {
    if now >= d.absoluteExpiresAt then d.(state := Expired)
    else if d.permit.None? then d.(state := RetryWait, nextAttemptAt := Some(now))
    else
      d.(state := if d.attempt + 1 >= MAX_DELIVERY_ATTEMPTS then Failed else RetryWait,
         attempt := d.attempt + 1,
         nextAttemptAt := Some(now + (if d.attempt + 1 == 1 then 5_000 else 20_000)))
  }

  function Reclaim(s: State, i: nat, now: int): (State, Option<Lease>)
    requires i < |s.deliveries|
  {
    if SlotBusy(s.device, now) then (s, None)
    else
      var token := s.minted;
      var d := s.deliveries[i].(state := Claimed, claimToken := Some(token), claimExpiresAt := Some(now + CLAIM_LEASE_MS));
      (Put(Mint(s), i, d), Some(Lease(i, token, now + CLAIM_LEASE_MS)))
  }

  function ClaimUnderWay(s: State, i: nat, env: Env): (State, Option<Lease>)
    requires i < |s.deliveries|
  {
    var d := s.deliveries[i];
    match d.state
    case Claimed =>
      if env.now < d.claimExpiresAt.GetOr(0) then (s, None) else (Put(s, i, Lapsed(d, env.now)), None)
    case RetryWait =>
      if env.now >= d.absoluteExpiresAt then (Put(s, i, d.(state := Expired)), None)
      else if env.quiet || env.now < d.nextAttemptAt.GetOr(0) then (s, None)
      else Reclaim(s, i, env.now)
    case _ => Reclaim(s, i, env.now)
  }

  ghost function ScanWindow(s: State, env: Env): Scan {
    ScanRows(s, env, AttentionWindow(s.notes, ScanFrom(s)), Start(s.device.planned))
  }

  ghost function FormBatch(s: State, env: Env): (State, Option<Lease>) {
    var scan := ScanWindow(s, env);
    if scan.candidates == [] then
      var moved := Advance(s, Target(scan));
      (if scan.recoveryDeferred then moved else ConsumeRecovery(moved), None)
    else
      var token := s.minted;
      var d := Delivery(
        false, Claimed, 0, Some(env.now), env.now + DELIVERY_ABSOLUTE_DEADLINE_MS,
        Some(token), Some(env.now + CLAIM_LEASE_MS), None, Ordinals(scan.candidates));
      var moved := Advance(Mint(s).(deliveries := s.deliveries + [d]), Target(scan));
      (if scan.includedRecovery || !scan.recoveryDeferred then ConsumeRecovery(moved) else moved,
       Some(Lease(|s.deliveries|, token, env.now + CLAIM_LEASE_MS)))
  }

  ghost function ClaimNew(s: State, env: Env): (State, Option<Lease>) {
    var noted := NoteQuiet(s, env.quiet);
    if env.quiet || SlotBusy(s.device, env.now) then (noted, None)
    else FormBatch(SetRecoveryRange(noted), env)
  }

  ghost function Claim(s: State, env: Env): (State, Option<Lease>) {
    if !s.device.enabled || !env.granted then (s, None)
    else
      match FirstLive(s.deliveries, 0)
      case Some(i) =>
        if s.deliveries[i].state == Pending && !s.deliveries[i].test then ClaimNew(s, env) else ClaimUnderWay(s, i, env)
      case None => ClaimNew(s, env)
  }

  // ---- Revalidating, reporting, testing ----

  function Release(s: State, i: nat, at: int): State
    requires i < |s.deliveries|
  {
    Put(s, i, s.deliveries[i].(state := RetryWait, nextAttemptAt := Some(at)))
  }

  function Wait(dev: Device, now: int): int {
    if dev.nextSend.GetOr(0) - now > 1_000 then dev.nextSend.GetOr(0) - now else 1_000
  }

  /** A fresh permit, and the send slot it takes. */
  function Issue(s: State, i: nat, now: int): (State, RevalidateAnswer)
    requires i < |s.deliveries|
  {
    var permit := s.minted;
    var taken := Mint(s).(device := s.device.(lastAttempt := Some(now), nextSend := Some(now + SEND_SLOT_INTERVAL_MS)));
    (Put(taken, i, s.deliveries[i].(permit := Some(permit))), Deliver(permit))
  }

  /** Some notification of the batch still wants attention. */
  predicate StillWanted(s: State, items: set<nat>) {
    exists n :: n in s.notes && n.ordinal in items && WantsAttention(n)
  }

  function RevalidateTest(s: State, i: nat, now: int): (State, RevalidateAnswer)
    requires i < |s.deliveries|
  {
    if s.deliveries[i].permit.Some? then (s, Deliver(s.deliveries[i].permit.value))
    else if SlotBusy(s.device, now) then
      var ms := Wait(s.device, now);
      (Release(s, i, now + ms), RetryLater(ms))
    else Issue(s, i, now)
  }

  function RevalidateBatch(s: State, i: nat, env: Env): (State, RevalidateAnswer)
    requires i < |s.deliveries|
  {
    var d := s.deliveries[i];
    var ms := Wait(s.device, env.now);
    if env.quiet then (Release(s, i, env.now + 60_000), RetryLater(60_000))
    else if SlotBusy(s.device, env.now) then (Release(s, i, env.now + ms), RetryLater(ms))
    else if !StillWanted(s, d.items) then (Put(s, i, d.(state := Suppressed)), Cancel)
    else if d.permit.Some? then (s, Deliver(d.permit.value))
    else if s.device.lastAttempt.Some? && !(s.device.nextSend.Some? && env.now >= s.device.nextSend.value) then
      // The compare-and-set on the device row found the slot taken.
      var left := if s.device.nextSend.GetOr(env.now) - env.now > 1_000 then s.device.nextSend.GetOr(env.now) - env.now else 1_000;
      (Release(s, i, env.now + left), RetryLater(left))
    else Issue(s, i, env.now)
  }

  function Revalidate(s: State, i: nat, token: nat, env: Env): (State, RevalidateAnswer) {
    if i >= |s.deliveries| || s.deliveries[i].claimToken != Some(token) || s.deliveries[i].state != Claimed then (s, Cancel)
    else if env.now > s.deliveries[i].absoluteExpiresAt then (Put(s, i, s.deliveries[i].(state := Expired)), Cancel)
    else if !s.device.enabled then (s, Cancel)
    else if s.deliveries[i].test then RevalidateTest(s, i, env.now)
    else RevalidateBatch(s, i, env)
  }

  function Reported(d: Delivery, result: ReportResult, cancelled: bool, now: int): Delivery {
    var attempt := d.attempt + 1;
    if result == ReportAccepted then d.(state := Accepted, attempt := attempt)
    else if cancelled then d.(state := Suppressed, attempt := attempt, nextAttemptAt := None)
    else if attempt >= MAX_DELIVERY_ATTEMPTS || now >= d.absoluteExpiresAt then
      d.(state := if result == ReportUnknown then Unknown else Failed, attempt := attempt, nextAttemptAt := None)
    else d.(state := RetryWait, attempt := attempt, nextAttemptAt := Some(now + (if attempt == 1 then 5_000 else 20_000)))
  }

  function Report(s: State, i: nat, token: nat, result: ReportResult, cancelled: bool, now: int): State {
    if i >= |s.deliveries| || s.deliveries[i].claimToken != Some(token) || s.deliveries[i].state != Claimed then s
    else Put(s, i, Reported(s.deliveries[i], result, cancelled, now))
  }

  function Test(s: State, now: int): (State, TestAnswer) {
    if now - s.lastTest < TEST_RATE_LIMIT_MS then (s, RateLimited)
    else
      var noted := s.(lastTest := now);
      if !s.device.enabled then (noted, DeviceDisabled)
      else if FirstLive(s.deliveries, 0).Some? then (noted, DeliveryBusy)
      else
        var d := Delivery(true, Pending, 0, Some(now), now + DELIVERY_ABSOLUTE_DEADLINE_MS, None, None, None, {});
        (noted.(deliveries := s.deliveries + [d]), Queued)
  }
}
