/** The organizer's quiet stretches, their timers and the stops. */
module QuietStretches {
  import opened Wrappers

  type Plan = string

  // A timer per plan starts a stretch, a stretch makes settles, and a stop keeps a stretch under way
  // from putting stopped work back in progress. Every await is a place where anything else may
  // happen first.

  /** Where a stretch is held up; `flying` says that a settle of its own is out. */
  datatype Phase = Checking | Settling(flying: bool) | Rechecking | Evidence(flying: bool) | Ending | Over

  /** `stops` is how many stops the plan had seen when the stretch started. */
  datatype Stretch = Stretch(plan: Plan, stops: nat, phase: Phase)

  /**
   * `timers` is what the organizer keeps, `live` the timers that will really go off. `outside` are
   * the plans with a settle out that no stretch made; `quiet` lists the stretches that called back.
   */
  datatype State = State(
    timers: map<Plan, nat>, live: map<nat, Plan>, made: nat,
    inFlight: set<Plan>, awaitingEvidence: set<Plan>, stopped: bool, stopsSeen: map<Plan, nat>,
    stretches: seq<Stretch>, outside: set<Plan>, quiet: seq<nat>)

  /**
   * What a step finds: whether the engine is draining, whether a settle is refused for a reason of
   * its own, whether what was awaited failed, and what a filing said about evidence still missing.
   */
  datatype Env = Env(draining: bool, refused: bool, failed: bool, missing: Option<bool>)

  function Stops(s: State, plan: Plan): nat {
    if plan in s.stopsSeen then s.stopsSeen[plan] else 0
  }

  function Cleared(s: State, plan: Plan): State {
    if plan in s.timers then s.(timers := s.timers - {plan}, live := s.live - {s.timers[plan]}) else s
  }

  function TurnEnded(s: State, plan: Option<Plan>, over: bool, draining: bool): State {
    if plan.None? || draining || !over then s
    else
      var cleared := Cleared(s, plan.value);
      cleared.(stopped := false, timers := cleared.timers[plan.value := s.made], live := cleared.live[s.made := plan.value], made := s.made + 1)
  }

  function TurnStopped(s: State, plan: Plan): State {
    Cleared(s, plan).(stopsSeen := s.stopsSeen[plan := Stops(s, plan) + 1])
  }

  function Forgotten(s: State, plan: Plan): State {
    TurnStopped(s, plan).(awaitingEvidence := s.awaitingEvidence - {plan})
  }

  function TimersCleared(s: State): State {
    s.(stopped := true, timers := map[], live := s.live - s.timers.Values)
  }

  function Fired(s: State, timer: nat, dormant: bool): State
    requires timer in s.live
  {
    var plan := s.live[timer];
    var begun := Stretch(plan, Stops(s, plan), if dormant then Ending else Checking);
    s.(timers := s.timers - {plan}, live := s.live - {timer}, stretches := s.stretches + [begun])
  }

  function Noted(awaiting: set<Plan>, plan: Plan, missing: Option<bool>): set<Plan> {
    match missing
    case None => awaiting
    case Some(true) => awaiting + {plan}
    case Some(false) => awaiting - {plan}
  }

  predicate MaySettle(inFlight: set<Plan>, plan: Plan, env: Env) {
    !env.draining && plan !in inFlight && !env.refused
  }

  /** What a stretch does when it goes on: where it is held up next, what it changes, whether it calls back. */
  datatype Move = Move(phase: Phase, inFlight: set<Plan>, awaitingEvidence: set<Plan>, callsBack: bool)

  function SendsOut(phase: bool -> Phase, inFlight: set<Plan>, awaiting: set<Plan>, plan: Plan, env: Env): Move {
    if MaySettle(inFlight, plan, env) then Move(phase(true), inFlight + {plan}, awaiting, false) else Move(phase(false), inFlight, awaiting, false)
  }

  function Lands(phase: Phase, flying: bool, inFlight: set<Plan>, awaiting: set<Plan>, plan: Plan, env: Env): Move {
    if flying then Move(phase, inFlight - {plan}, Noted(awaiting, plan, env.missing), false) else Move(phase, inFlight, awaiting, false)
  }

  function Goes(x: Stretch, inFlight: set<Plan>, awaiting: set<Plan>, stopped: bool, stops: nat, env: Env): Move
    requires x.phase != Over
  {
    var halted := env.failed || stopped || env.draining;
    match x.phase
    case Checking => if halted then Move(Ending, inFlight, awaiting, false) else SendsOut(flying => Settling(flying), inFlight, awaiting, x.plan, env)
    case Settling(flying) => Lands(if halted then Ending else Rechecking, flying, inFlight, awaiting, x.plan, env)
    case Rechecking =>
      if halted || x.plan !in awaiting then Move(Ending, inFlight, awaiting, false)
      else SendsOut(flying => Evidence(flying), inFlight, awaiting - {x.plan}, x.plan, env)
    case Evidence(flying) => Lands(Ending, flying, inFlight, awaiting, x.plan, env)
    case Ending => Move(Over, inFlight, awaiting, !stopped && !env.draining && stops == x.stops)
  }

  /** A stretch goes on from where it was held up. */
  function Resumed(s: State, i: nat, env: Env): State
    requires i < |s.stretches| && s.stretches[i].phase != Over
  {
    var x := s.stretches[i];
    var move := Goes(x, s.inFlight, s.awaitingEvidence, s.stopped, Stops(s, x.plan), env);
    s.(stretches := s.stretches[i := x.(phase := move.phase)], inFlight := move.inFlight, awaitingEvidence := move.awaitingEvidence,
       quiet := if move.callsBack then s.quiet + [i] else s.quiet)
  }

  /** A settle asked for by others. */
  function SettleBegun(s: State, plan: Plan, env: Env): State {
    if MaySettle(s.inFlight, plan, env) then s.(inFlight := s.inFlight + {plan}, outside := s.outside + {plan}) else s
  }

  function SettleLanded(s: State, plan: Plan, env: Env): State
    requires plan in s.outside
  {
    s.(awaitingEvidence := Noted(s.awaitingEvidence, plan, env.missing), inFlight := s.inFlight - {plan}, outside := s.outside - {plan})
  }

  class Organizer {
    var settleTimers: map<Plan, nat>
    var inFlight: set<Plan>
    var awaitingEvidence: set<Plan>
    var stopped: bool
    var stopsSeen: map<Plan, nat>
    // What the runtime holds for it: the timers set, the calls suspended.
    var live: map<nat, Plan>
    var made: nat
    var stretches: seq<Stretch>
    var outside: set<Plan>
    ghost var quiet: seq<nat>

    ghost function Value(): State
      reads this
    {
      State(settleTimers, live, made, inFlight, awaitingEvidence, stopped, stopsSeen, stretches, outside, quiet)
    }

    constructor ()
      ensures Value() == State(map[], map[], 0, {}, {}, false, map[], [], {}, [])
    {
      settleTimers, live, made := map[], map[], 0;
      inFlight, awaitingEvidence, stopped, stopsSeen := {}, {}, false, map[];
      stretches, outside, quiet := [], {}, [];
    }

    method ClearTimeout(plan: Plan)
      modifies this`live
      ensures live == if plan in settleTimers then old(live) - {settleTimers[plan]} else old(live)
    {
      if plan in settleTimers { live := live - {settleTimers[plan]}; }
    }

    /** `noteTurnEnded`; `over` says that the turn neither runs nor waits for an answer. */
    method NoteTurnEnded(plan: Option<Plan>, over: bool, draining: bool)
      modifies this
      ensures Value() == TurnEnded(old(Value()), plan, over, draining)
    {
      if plan.None? || draining { return; }
      if !over { return; }
      stopped := false;
      ClearTimeout(plan.value);
      var timer := made;
      made := made + 1;
      live := live[timer := plan.value];
      settleTimers := settleTimers[plan.value := timer];
      assert Value() == TurnEnded(old(Value()), plan, over, draining) by {
        assert (old(settleTimers) - {plan.value})[plan.value := timer] == settleTimers;
      }
    }

    /** The rest of `noteTurnEnded`, when its timer goes off. */
    method TimerFires(timer: nat, dormant: bool)
      requires timer in live
      modifies this
      ensures Value() == Fired(old(Value()), timer, dormant)
    {
      var plan := live[timer];
      live := live - {timer};
      settleTimers := settleTimers - {plan};
      var stops := if plan in stopsSeen then stopsSeen[plan] else 0;
      stretches := stretches + [Stretch(plan, stops, if dormant then Ending else Checking)];
    }

    /** `noteTurnStopped` */
    method NoteTurnStopped(plan: Plan)
      modifies this
      ensures Value() == TurnStopped(old(Value()), plan)
    {
      ClearTimeout(plan);
      settleTimers := settleTimers - {plan};
      stopsSeen := stopsSeen[plan := (if plan in stopsSeen then stopsSeen[plan] else 0) + 1];
    }

    /** `forgetPlan` */
    method ForgetPlan(plan: Plan)
      modifies this
      ensures Value() == Forgotten(old(Value()), plan)
    {
      ClearTimeout(plan);
      settleTimers := settleTimers - {plan};
      awaitingEvidence := awaitingEvidence - {plan};
      stopsSeen := stopsSeen[plan := (if plan in stopsSeen then stopsSeen[plan] else 0) + 1];
    }

    /** `clearTimers` */
    method ClearTimers()
      modifies this
      ensures Value() == TimersCleared(old(Value()))
    {
      stopped := true;
      live := live - settleTimers.Values;
      settleTimers := map[];
    }

    /** What a filing said about evidence still missing. */
    method Note(plan: Plan, missing: Option<bool>)
      modifies this`awaitingEvidence
      ensures awaitingEvidence == Noted(old(awaitingEvidence), plan, missing)
    {
      if missing == Some(true) { awaitingEvidence := awaitingEvidence + {plan}; }
      if missing == Some(false) { awaitingEvidence := awaitingEvidence - {plan}; }
    }

    /** `settlePlan` up to its call to the model. */
    method BeginSettle(plan: Plan, env: Env) returns (flying: bool)
      modifies this`inFlight
      ensures flying == MaySettle(old(inFlight), plan, env)
      ensures inFlight == if flying then old(inFlight) + {plan} else old(inFlight)
    {
      if env.draining || plan in inFlight { return false; }
      if env.refused { return false; }
      inFlight := inFlight + {plan};
      return true;
    }

    /** `settlePlan` from the model's answer on. */
    method LandSettle(plan: Plan, missing: Option<bool>)
      modifies this`inFlight, this`awaitingEvidence
      ensures awaitingEvidence == Noted(old(awaitingEvidence), plan, missing) && inFlight == old(inFlight) - {plan}
    {
      Note(plan, missing);
      inFlight := inFlight - {plan};
    }

    /** `quietStretch`, and the call back after it, from one await to the next. */
    method Resume(i: nat, env: Env)
      requires i < |stretches| && stretches[i].phase != Over
      modifies this
      ensures Value() == Resumed(old(Value()), i, env)
    {
      var Stretch(plan, stops, phase) := stretches[i];
      match phase
      case Checking =>
        if env.failed || stopped || env.draining {
          Hold(i, Ending);
          return;
        }
        var flying := BeginSettle(plan, env);
        Hold(i, Settling(flying));
      case Settling(flying) =>
        if flying { LandSettle(plan, env.missing); }
        Hold(i, if env.failed || stopped || env.draining then Ending else Rechecking);
      case Rechecking =>
        if env.failed || stopped || env.draining || plan !in awaitingEvidence {
          Hold(i, Ending);
          return;
        }
        awaitingEvidence := awaitingEvidence - {plan};
        var flying := BeginSettle(plan, env);
        Hold(i, Evidence(flying));
      case Evidence(flying) =>
        if flying { LandSettle(plan, env.missing); }
        Hold(i, Ending);
      case Ending =>
        Hold(i, Over);
        if !stopped && !env.draining && (if plan in stopsSeen then stopsSeen[plan] else 0) == stops { quiet := quiet + [i]; }
    }

    method Hold(i: nat, phase: Phase)
      requires i < |stretches|
      modifies this`stretches
      ensures stretches == old(stretches)[i := old(stretches)[i].(phase := phase)]
    {
      stretches := stretches[i := stretches[i].(phase := phase)];
    }

    /** `settlePlan`, asked for from outside. */
    method SettlePlan(plan: Plan, env: Env)
      modifies this
      ensures Value() == SettleBegun(old(Value()), plan, env)
    {
      var flying := BeginSettle(plan, env);
      if flying { outside := outside + {plan}; }
    }

    method SettlePlanLands(plan: Plan, env: Env)
      requires plan in outside
      modifies this
      ensures Value() == SettleLanded(old(Value()), plan, env)
    {
      LandSettle(plan, env.missing);
      outside := outside - {plan};
    }
  }

  // ---- Whole runs ----

  datatype Step =
    | Ended(of: Option<Plan>, over: bool, draining: bool)
    | Stopped(plan: Plan)
    | Forget(plan: Plan)
    | ClearAll
    | Fire(timer: nat, dormant: bool)
    | Resume(i: nat, env: Env)
    | File(plan: Plan, missing: Option<bool>)
    | Settle(plan: Plan, env: Env)
    | Land(plan: Plan, env: Env)

  /** A step that cannot happen, a timer that is not set or a stretch that is over, changes nothing. */
  function Apply(s: State, step: Step): State {
    match step
    case Ended(plan, over, draining) => TurnEnded(s, plan, over, draining)
    case Stopped(plan) => TurnStopped(s, plan)
    case Forget(plan) => Forgotten(s, plan)
    case ClearAll => TimersCleared(s)
    case Fire(timer, dormant) => if timer in s.live then Fired(s, timer, dormant) else s
    case Resume(i, env) => if i < |s.stretches| && s.stretches[i].phase != Over then Resumed(s, i, env) else s
    case File(plan, missing) => s.(awaitingEvidence := Noted(s.awaitingEvidence, plan, missing))
    case Settle(plan, env) => SettleBegun(s, plan, env)
    case Land(plan, env) => if plan in s.outside then SettleLanded(s, plan, env) else s
  }

  function Run(s: State, steps: seq<Step>): State {
    if steps == [] then s else Apply(Run(s, steps[..|steps| - 1]), steps[|steps| - 1])
  }

  const FRESH: State := State(map[], map[], 0, {}, {}, false, map[], [], {}, [])

  /** The organizer knows every timer that will go off, and no plan has two. */
  ghost predicate TimersKnown(timers: map<Plan, nat>, live: map<nat, Plan>, made: nat) {
    && (forall t :: t in live ==> t < made && live[t] in timers && timers[live[t]] == t)
    && (forall p :: p in timers ==> timers[p] in live && live[timers[p]] == p)
  }

  predicate Flies(x: Stretch) {
    (x.phase.Settling? && x.phase.flying) || (x.phase.Evidence? && x.phase.flying)
  }

  ghost predicate HasSettle(stretches: seq<Stretch>, plan: Plan) {
    exists i :: 0 <= i < |stretches| && Flies(stretches[i]) && stretches[i].plan == plan
  }

  /** Each plan has at most one settle out, and `inFlight` holds just the plans that have one. */
  ghost predicate OneSettle(stretches: seq<Stretch>, outside: set<Plan>, inFlight: set<Plan>) {
    && (forall i, j :: 0 <= i < j < |stretches| && Flies(stretches[i]) && Flies(stretches[j]) ==> stretches[i].plan != stretches[j].plan)
    && (forall p :: p in outside ==> p in inFlight && !HasSettle(stretches, p))
    && (forall p :: p in inFlight <==> p in outside || HasSettle(stretches, p))
  }

  /** No stretch noted more stops than there were, and only one that is over has called back, once. */
  ghost predicate CallsBackOnce(s: State) {
    && (forall i :: 0 <= i < |s.stretches| ==> s.stretches[i].stops <= Stops(s, s.stretches[i].plan))
    && (forall k :: 0 <= k < |s.quiet| ==> s.quiet[k] < |s.stretches| && s.stretches[s.quiet[k]].phase == Over)
    && (forall k, l :: 0 <= k < l < |s.quiet| ==> s.quiet[k] != s.quiet[l])
  }

  ghost predicate Inv(s: State) {
    TimersKnown(s.timers, s.live, s.made) && OneSettle(s.stretches, s.outside, s.inFlight) && CallsBackOnce(s)
  }

  // ---- Timers ----

  lemma ClearedKnown(s: State, plan: Plan)
    requires TimersKnown(s.timers, s.live, s.made)
    ensures TimersKnown(Cleared(s, plan).timers, Cleared(s, plan).live, s.made) && plan !in Cleared(s, plan).timers
  {
  }

  lemma SetKnown(timers: map<Plan, nat>, live: map<nat, Plan>, made: nat, plan: Plan)
    requires TimersKnown(timers, live, made) && plan !in timers
    ensures TimersKnown(timers[plan := made], live[made := plan], made + 1)
  {
  }

  lemma FiredKnown(timers: map<Plan, nat>, live: map<nat, Plan>, made: nat, timer: nat)
    requires TimersKnown(timers, live, made) && timer in live
    ensures TimersKnown(timers - {live[timer]}, live - {timer}, made)
  {
  }

  lemma AllClearedKnown(timers: map<Plan, nat>, live: map<nat, Plan>, made: nat)
    requires TimersKnown(timers, live, made)
    ensures live - timers.Values == map[]
  {
  }

  lemma TimersKept(s: State, step: Step)
    requires TimersKnown(s.timers, s.live, s.made)
    ensures var s' := Apply(s, step); TimersKnown(s'.timers, s'.live, s'.made)
  {
    hide TimersKnown, Goes;
    match step
    case Ended(plan, over, draining) =>
      if plan.Some? {
        ClearedKnown(s, plan.value);
        SetKnown(Cleared(s, plan.value).timers, Cleared(s, plan.value).live, s.made, plan.value);
      }
    case Stopped(plan) => ClearedKnown(s, plan);
    case Forget(plan) => ClearedKnown(s, plan);
    case ClearAll =>
      AllClearedKnown(s.timers, s.live, s.made);
      NoTimers(s.made);
    case Fire(timer, dormant) => if timer in s.live { FiredKnown(s.timers, s.live, s.made, timer); }
    case _ =>
  }

  lemma NoTimers(made: nat)
    ensures TimersKnown(map[], map[], made)
  {
  }

  // ---- Settles ----

  lemma Elsewhere(stretches: seq<Stretch>, i: nat, phase: Phase, plan: Plan)
    requires i < |stretches| && plan != stretches[i].plan
    ensures HasSettle(stretches[i := stretches[i].(phase := phase)], plan) <==> HasSettle(stretches, plan)
  {
    var stretches' := stretches[i := stretches[i].(phase := phase)];
    if HasSettle(stretches, plan) {
      var k :| 0 <= k < |stretches| && Flies(stretches[k]) && stretches[k].plan == plan;
      assert stretches'[k] == stretches[k];
    }
    if HasSettle(stretches', plan) {
      var k :| 0 <= k < |stretches'| && Flies(stretches'[k]) && stretches'[k].plan == plan;
      assert stretches'[k] == stretches[k];
    }
  }

  /** A stretch sends out a settle, which nobody had out for the plan. */
  lemma SettleLeaves(stretches: seq<Stretch>, outside: set<Plan>, inFlight: set<Plan>, i: nat, phase: Phase)
    requires OneSettle(stretches, outside, inFlight) && i < |stretches| && stretches[i].plan !in inFlight
    requires Flies(stretches[i].(phase := phase))
    ensures OneSettle(stretches[i := stretches[i].(phase := phase)], outside, inFlight + {stretches[i].plan})
  {
    var stretches' := stretches[i := stretches[i].(phase := phase)];
    forall p | p != stretches[i].plan
      ensures HasSettle(stretches', p) <==> HasSettle(stretches, p)
    {
      Elsewhere(stretches, i, phase, p);
    }
    assert Flies(stretches'[i]);
    forall j, k | 0 <= j < k < |stretches'| && Flies(stretches'[j]) && Flies(stretches'[k])
      ensures stretches'[j].plan != stretches'[k].plan
    {
      if j == i { assert Flies(stretches[k]); }
      if k == i { assert Flies(stretches[j]); }
    }
  }

  /** A stretch's settle lands, or none was out. */
  lemma SettleLands(stretches: seq<Stretch>, outside: set<Plan>, inFlight: set<Plan>, i: nat, phase: Phase)
    requires OneSettle(stretches, outside, inFlight) && i < |stretches| && !Flies(stretches[i].(phase := phase))
    ensures OneSettle(stretches[i := stretches[i].(phase := phase)], outside, if Flies(stretches[i]) then inFlight - {stretches[i].plan} else inFlight)
  {
    var stretches' := stretches[i := stretches[i].(phase := phase)];
    var plan := stretches[i].plan;
    forall p | p != plan
      ensures HasSettle(stretches', p) <==> HasSettle(stretches, p)
    {
      Elsewhere(stretches, i, phase, p);
    }
    if Flies(stretches[i]) {
      assert HasSettle(stretches, plan);
      assert !HasSettle(stretches', plan);
    } else {
      if HasSettle(stretches, plan) {
        var k :| 0 <= k < |stretches| && Flies(stretches[k]) && stretches[k].plan == plan;
        assert stretches'[k] == stretches[k];
      }
    }
  }

  lemma BegunQuietly(stretches: seq<Stretch>, outside: set<Plan>, inFlight: set<Plan>, begun: Stretch)
    requires OneSettle(stretches, outside, inFlight) && !Flies(begun)
    ensures OneSettle(stretches + [begun], outside, inFlight)
  {
    forall p
      ensures HasSettle(stretches + [begun], p) <==> HasSettle(stretches, p)
    {
      if HasSettle(stretches, p) {
        var k :| 0 <= k < |stretches| && Flies(stretches[k]) && stretches[k].plan == p;
        assert (stretches + [begun])[k] == stretches[k];
      }
    }
  }

  lemma OutsideSettles(stretches: seq<Stretch>, outside: set<Plan>, inFlight: set<Plan>, plan: Plan)
    requires OneSettle(stretches, outside, inFlight)
    ensures plan !in inFlight ==> OneSettle(stretches, outside + {plan}, inFlight + {plan})
    ensures plan in outside ==> OneSettle(stretches, outside - {plan}, inFlight - {plan})
  {
  }

  lemma GoesSettles(x: Stretch, inFlight: set<Plan>, awaiting: set<Plan>, stopped: bool, stops: nat, env: Env)
    requires x.phase != Over
    ensures var move := Goes(x, inFlight, awaiting, stopped, stops, env);
            && (Flies(x.(phase := move.phase)) ==> x.plan !in inFlight && move.inFlight == inFlight + {x.plan})
            && (!Flies(x.(phase := move.phase)) ==> move.inFlight == if Flies(x) then inFlight - {x.plan} else inFlight)
            && (move.callsBack ==> move.phase == Over && !stopped && stops == x.stops)
  {
  }

  lemma ResumeSettles(s: State, i: nat, env: Env)
    requires OneSettle(s.stretches, s.outside, s.inFlight) && i < |s.stretches| && s.stretches[i].phase != Over
    ensures var s' := Resumed(s, i, env); OneSettle(s'.stretches, s'.outside, s'.inFlight)
  {
    hide OneSettle, Goes, Flies;
    var x := s.stretches[i];
    GoesSettles(x, s.inFlight, s.awaitingEvidence, s.stopped, Stops(s, x.plan), env);
    var phase := Resumed(s, i, env).stretches[i].phase;
    if Flies(x.(phase := phase)) {
      SettleLeaves(s.stretches, s.outside, s.inFlight, i, phase);
    } else {
      SettleLands(s.stretches, s.outside, s.inFlight, i, phase);
    }
  }

  lemma SettlesKept(s: State, step: Step)
    requires OneSettle(s.stretches, s.outside, s.inFlight)
    ensures var s' := Apply(s, step); OneSettle(s'.stretches, s'.outside, s'.inFlight)
  {
    hide OneSettle, Resumed;
    match step
    case Fire(timer, dormant) =>
      if timer in s.live { BegunQuietly(s.stretches, s.outside, s.inFlight, Apply(s, step).stretches[|s.stretches|]); }
    case Resume(i, env) => if i < |s.stretches| && s.stretches[i].phase != Over { ResumeSettles(s, i, env); }
    case Settle(plan, env) => OutsideSettles(s.stretches, s.outside, s.inFlight, plan);
    case Land(plan, env) => OutsideSettles(s.stretches, s.outside, s.inFlight, plan);
    case _ =>
  }

  // ---- Calling back ----

  lemma StopsGrow(s: State, step: Step, plan: Plan)
    ensures Stops(Apply(s, step), plan) >= Stops(s, plan)
  {
    hide Goes;
  }

  ghost predicate Begins(s: State, s': State, plan: Plan) {
    && s'.quiet == s.quiet && |s'.stretches| == |s.stretches| + 1 && s'.stretches[..|s.stretches|] == s.stretches
    && s'.stretches[|s.stretches|].plan == plan && s'.stretches[|s.stretches|].stops == Stops(s, plan)
    && s'.stretches[|s.stretches|].phase != Over
  }

  ghost predicate GoesOn(s: State, s': State, i: nat)
    requires i < |s.stretches|
  {
    && |s'.stretches| == |s.stretches| && s.stretches[i].phase != Over
    && s'.stretches == s.stretches[i := s.stretches[i].(phase := s'.stretches[i].phase)]
    && (s'.quiet != s.quiet ==>
          && s'.quiet == s.quiet + [i] && s'.stretches[i].phase == Over
          && !s.stopped && Stops(s, s.stretches[i].plan) == s.stretches[i].stops)
  }

  /** A step begins one stretch, moves one on, or leaves them all as they are. */
  lemma StretchesAfter(s: State, step: Step)
    ensures var s' := Apply(s, step);
            if step.Fire? && step.timer in s.live then Begins(s, s', s.live[step.timer])
            else if step.Resume? && step.i < |s.stretches| && s.stretches[step.i].phase != Over then GoesOn(s, s', step.i)
            else s'.stretches == s.stretches && s'.quiet == s.quiet
  {
    hide Goes;
    if step.Resume? && step.i < |s.stretches| {
      var x := s.stretches[step.i];
      if x.phase != Over { GoesSettles(x, s.inFlight, s.awaitingEvidence, s.stopped, Stops(s, x.plan), step.env); }
    }
  }

  lemma CallsKept(s: State, step: Step)
    requires CallsBackOnce(s)
    ensures CallsBackOnce(Apply(s, step))
  {
    hide Apply, Stops;
    var s' := Apply(s, step);
    forall plan
      ensures Stops(s', plan) >= Stops(s, plan)
    {
      StopsGrow(s, step, plan);
    }
    StretchesAfter(s, step);
  }

  /** In every run: one timer a plan, one settle out a plan, one call back a stretch. */
  lemma {:induction false} RunKeeps(s: State, steps: seq<Step>)
    requires s == FRESH || Inv(s)
    ensures Inv(Run(s, steps))
  {
    if steps != [] {
      var before, step := Run(s, steps[..|steps| - 1]), steps[|steps| - 1];
      RunKeeps(s, steps[..|steps| - 1]);
      TimersKept(before, step);
      SettlesKept(before, step);
      CallsKept(before, step);
    }
  }

  // ---- After a stop ----

  /** The turn that ended sets a timer. */
  predicate Arms(step: Step) {
    step.Ended? && step.of.Some? && step.over && !step.draining
  }

  predicate ArmsFor(step: Step, plan: Plan) {
    Arms(step) && step.of == Some(plan)
  }

  /** Of the first `n` stretches, those of the plan that are not over noted fewer stops than there were. */
  ghost predicate Stale(s: State, plan: Plan, n: nat) {
    && n <= |s.stretches|
    && forall i :: 0 <= i < n && s.stretches[i].plan == plan && s.stretches[i].phase != Over ==> s.stretches[i].stops < Stops(s, plan)
  }

  /** Since the first `n` none of the plan's has begun, and no timer is set that would begin one. */
  ghost predicate Unarmed(s: State, plan: Plan, n: nat) {
    plan !in s.timers && forall i :: n <= i < |s.stretches| ==> s.stretches[i].plan != plan
  }

  /** Of the plan's stretches only later ones than the first `n` have called back since. */
  ghost predicate OnlyLater(s: State, calls: nat, plan: Plan, n: nat) {
    && calls <= |s.quiet|
    && forall k :: calls <= k < |s.quiet| ==> s.quiet[k] < |s.stretches| && (s.stretches[s.quiet[k]].plan == plan ==> s.quiet[k] >= n)
  }

  lemma StaleStays(s: State, step: Step, calls: nat, plan: Plan, n: nat)
    requires Stale(s, plan, n) && OnlyLater(s, calls, plan, n)
    ensures Stale(Apply(s, step), plan, n) && OnlyLater(Apply(s, step), calls, plan, n)
  {
    hide Apply, Stops;
    StopsGrow(s, step, plan);
    StretchesAfter(s, step);
  }

  lemma UnarmedStays(s: State, step: Step, plan: Plan, n: nat)
    requires TimersKnown(s.timers, s.live, s.made) && Unarmed(s, plan, n) && !ArmsFor(step, plan)
    ensures Unarmed(Apply(s, step), plan, n)
  {
    hide Stops, Goes;
    StretchesAfter(s, step);
  }

  lemma {:induction false} RunAfter(s: State, steps: seq<Step>, plan: Plan)
    requires Inv(s) && Stale(s, plan, |s.stretches|) && plan !in s.timers
    ensures var s' := Run(s, steps);
            && Stale(s', plan, |s.stretches|) && OnlyLater(s', |s.quiet|, plan, |s.stretches|)
            && ((forall step :: step in steps ==> !ArmsFor(step, plan)) ==> Unarmed(s', plan, |s.stretches|))
  {
    if steps != [] {
      var before, step := Run(s, steps[..|steps| - 1]), steps[|steps| - 1];
      RunAfter(s, steps[..|steps| - 1], plan);
      RunKeeps(s, steps[..|steps| - 1]);
      hide Apply, Stale, OnlyLater, Unarmed, Arms;
      StaleStays(before, step, |s.quiet|, plan, |s.stretches|);
      if forall step :: step in steps ==> !ArmsFor(step, plan) {
        assert step in steps;
        UnarmedStays(before, step, plan, |s.stretches|);
      }
    }
  }

  lemma StopMakesStale(s: State, plan: Plan, stop: Step)
    requires Inv(s) && (stop == Stopped(plan) || stop == Forget(plan))
    ensures var s' := Apply(s, stop); Inv(s') && Stale(s', plan, |s'.stretches|) && plan !in s'.timers
  {
    TimersKept(s, stop);
    SettlesKept(s, stop);
    CallsKept(s, stop);
    ClearedKnown(s, plan);
  }

  /**
   * After a stop or a forget of a plan, whatever happens: no stretch that was under way ever calls
   * back for it, and nothing does until a turn of the plan has ended that sets a new timer.
   */
  lemma StopIsKept(s: State, plan: Plan, stop: Step, steps: seq<Step>, k: nat)
    requires Inv(s) && (stop == Stopped(plan) || stop == Forget(plan))
    requires var s' := Run(Apply(s, stop), steps);
             |Apply(s, stop).quiet| <= k < |s'.quiet| && s'.quiet[k] < |s'.stretches| && s'.stretches[s'.quiet[k]].plan == plan
    ensures Run(Apply(s, stop), steps).quiet[k] >= |Apply(s, stop).stretches|
    ensures exists step :: step in steps && ArmsFor(step, plan)
  {
    hide Apply, Inv, Stale;
    StopMakesStale(s, plan, stop);
    RunAfter(Apply(s, stop), steps, plan);
  }

  /** While the timers stay cleared, no plan is called back for. */
  lemma {:induction false} ClearedIsQuiet(s: State, steps: seq<Step>)
    requires s.stopped && forall step :: step in steps ==> !Arms(step)
    ensures Run(s, steps).stopped && Run(s, steps).quiet == s.quiet
  {
    if steps != [] {
      var before, step := Run(s, steps[..|steps| - 1]), steps[|steps| - 1];
      ClearedIsQuiet(s, steps[..|steps| - 1]);
      assert step in steps;
      hide Stops, Goes;
      StretchesAfter(before, step);
    }
  }

  // ---- Left alone ----

  /** A stretch resumed `n` times over. */
  function ResumedOften(s: State, i: nat, env: Env, n: nat): State
    decreases n
  {
    if n == 0 then s else ResumedOften(Apply(s, Resume(i, env)), i, env, n - 1)
  }

  function Remaining(phase: Phase): nat {
    match phase
    case Checking => 5
    case Settling(_) => 4
    case Rechecking => 3
    case Evidence(_) => 2
    case Ending => 1
    case Over => 0
  }

  lemma {:induction false} GoesThrough(s: State, i: nat, env: Env, n: nat)
    requires i < |s.stretches| && Remaining(s.stretches[i].phase) <= n && !s.stopped && !env.draining && !env.failed
    requires if s.stretches[i].phase == Over then i in s.quiet else Stops(s, s.stretches[i].plan) == s.stretches[i].stops
    ensures i in ResumedOften(s, i, env, n).quiet
    decreases n
  {
    if n > 0 {
      hide Stops;
      var s' := Apply(s, Resume(i, env));
      assert s'.stopsSeen == s.stopsSeen;
      assert Stops(s', s.stretches[i].plan) == Stops(s, s.stretches[i].plan) by { SameStops(s, s', s.stretches[i].plan); }
      GoesThrough(s', i, env, n - 1);
    }
  }

  lemma SameStops(s: State, s': State, plan: Plan)
    requires s.stopsSeen == s'.stopsSeen
    ensures Stops(s, plan) == Stops(s', plan)
  {
  }

  /**
   * Left alone, a turn that ended leads to a call back, whatever was stopped before: its timer goes
   * off, and the stretch goes through, whether its settles are refused or not.
   */
  lemma LeftAloneCallsBack(s: State, plan: Plan, env: Env)
    requires TimersKnown(s.timers, s.live, s.made) && !env.draining && !env.failed
    ensures var set' := Apply(s, Ended(Some(plan), true, false));
            var begun := Apply(set', Fire(set'.timers[plan], false));
            |s.stretches| in ResumedOften(begun, |s.stretches|, env, 5).quiet
  {
    var set' := Apply(s, Ended(Some(plan), true, false));
    var begun := Apply(set', Fire(set'.timers[plan], false));
    GoesThrough(begun, |s.stretches|, env, 5);
  }
}
