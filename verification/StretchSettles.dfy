/** What a quiet stretch sends out on its way, and when a turn sets a timer. */
module StretchSettles {
  import opened Wrappers
  import opened QuietStretches

  /** Nothing tells the stretch to stop. */
  predicate GoesOn(s: State, env: Env) {
    !s.stopped && !env.draining && !env.failed
  }

  /**
   * A stretch sends out a settle exactly when nothing stops or refuses it, none is out for the plan,
   * and it has just checked, or has checked again and evidence was missing.
   */
  lemma SendsExactly(s: State, i: nat, env: Env)
    requires i < |s.stretches| && s.stretches[i].phase != Over
    ensures var x, s' := s.stretches[i], Apply(s, Resume(i, env));
            && (x.plan !in s.inFlight && x.plan in s'.inFlight <==>
                && GoesOn(s, env) && !env.refused && x.plan !in s.inFlight
                && (x.phase == Checking || (x.phase == Rechecking && x.plan in s.awaitingEvidence)))
            && (forall p :: p != x.plan ==> (p in s'.inFlight <==> p in s.inFlight) && (p in s'.awaitingEvidence <==> p in s.awaitingEvidence))
  {
    hide Stops;
  }

  /** The way of a stretch: it checks, settles, checks again, settles once more for missing evidence, and ends; told to stop it ends early. */
  lemma WayOfStretch(s: State, i: nat, env: Env)
    requires i < |s.stretches| && s.stretches[i].phase != Over
    ensures var x, s' := s.stretches[i], Apply(s, Resume(i, env));
            var after := s'.stretches[i].phase;
            && s'.stretches[i].plan == x.plan && s'.stretches[i].stops == x.stops
            && (after.Settling? <==> x.phase == Checking && GoesOn(s, env))
            && (after == Rechecking <==> x.phase.Settling? && GoesOn(s, env))
            && (after.Evidence? <==> x.phase == Rechecking && GoesOn(s, env) && x.plan in s.awaitingEvidence)
            && (after == Over <==> x.phase == Ending)
            && (after == Ending <==> x.phase.Evidence? || (x.phase != Ending && !GoesOn(s, env)) || (x.phase == Rechecking && x.plan !in s.awaitingEvidence))
            && (|s'.quiet| > |s.quiet| <==> x.phase == Ending && !s.stopped && !env.draining && Stops(s, x.plan) == x.stops)
  {
    hide Stops;
  }

  /** The evidence said to be missing, or not, when its settle landed; what it said nothing of stays as it was. */
  predicate StillMissing(before: bool, said: Option<bool>) {
    match said case None => before case Some(missing) => missing
  }

  /** One step of a stretch that nothing stops or refuses. */
  lemma StepOfStretch(s: State, i: nat, env: Env)
    requires i < |s.stretches| && GoesOn(s, env) && !env.refused
    ensures var x, s' := s.stretches[i], Apply(s, Resume(i, env));
            && s'.stopsSeen == s.stopsSeen && s'.stopped == s.stopped && |s'.stretches| == |s.stretches| && s'.stretches[i].plan == x.plan
            && s'.stretches[i].stops == x.stops
            && (x.phase == Checking && x.plan !in s.inFlight ==>
                s'.stretches[i].phase == Settling(true) && s'.inFlight == s.inFlight + {x.plan} && s'.awaitingEvidence == s.awaitingEvidence)
            && (x.phase == Settling(true) ==>
                s'.stretches[i].phase == Rechecking && s'.inFlight == s.inFlight - {x.plan}
                && (x.plan in s'.awaitingEvidence <==> StillMissing(x.plan in s.awaitingEvidence, env.missing)))
            && (x.phase == Rechecking && x.plan !in s.awaitingEvidence ==> s'.stretches[i].phase == Ending && s'.inFlight == s.inFlight && s'.awaitingEvidence == s.awaitingEvidence)
            && (x.phase == Rechecking && x.plan in s.awaitingEvidence && x.plan !in s.inFlight ==>
                s'.stretches[i].phase == Evidence(true) && s'.inFlight == s.inFlight + {x.plan} && s'.awaitingEvidence == s.awaitingEvidence - {x.plan})
            && (x.phase == Evidence(true) ==> s'.stretches[i].phase == Ending && s'.inFlight == s.inFlight - {x.plan})
            && (x.phase == Ending && Stops(s, x.plan) == x.stops ==> i in s'.quiet)
  {
    hide Stops;
  }

  /**
   * A stretch left alone with no settle refused: one goes out and lands, a second goes out exactly
   * when evidence is missing after the first, none is left out, and it calls back.
   */
  lemma LeftAloneSettles(s: State, i: nat, first: Env, landing: Env, second: Env, evidence: Env, last: Env)
    requires i < |s.stretches| && s.stretches[i].phase == Checking && s.stretches[i].plan !in s.inFlight
    requires !s.stopped && Stops(s, s.stretches[i].plan) == s.stretches[i].stops
    requires forall env :: env in [first, landing, second, evidence, last] ==> !env.draining && !env.failed && !env.refused
    ensures var plan := s.stretches[i].plan;
            var sent := Apply(s, Resume(i, first));
            var landed := Apply(sent, Resume(i, landing));
            var again := Apply(landed, Resume(i, second));
            var missing := StillMissing(plan in s.awaitingEvidence, landing.missing);
            && plan in sent.inFlight && plan !in landed.inFlight
            && (plan in landed.awaitingEvidence <==> missing)
            && (plan in again.inFlight <==> missing) && plan !in again.awaitingEvidence
            && (missing ==>
                var done := Apply(again, Resume(i, evidence));
                plan !in done.inFlight && i in Apply(done, Resume(i, last)).quiet)
            && (!missing ==> i in Apply(again, Resume(i, last)).quiet)
  {
    var envs := [first, landing, second, evidence, last];
    assert envs[0] in envs && envs[1] in envs && envs[2] in envs && envs[3] in envs && envs[4] in envs;
    assert first == envs[0] && landing == envs[1] && second == envs[2] && evidence == envs[3] && last == envs[4];
    hide Apply, Stops;
    var plan := s.stretches[i].plan;
    StepOfStretch(s, i, first);
    var sent := Apply(s, Resume(i, first));
    StepOfStretch(sent, i, landing);
    var landed := Apply(sent, Resume(i, landing));
    StepOfStretch(landed, i, second);
    var again := Apply(landed, Resume(i, second));
    StepOfStretch(again, i, evidence);
    var done := Apply(again, Resume(i, evidence));
    SameStops(s, again, plan);
    SameStops(s, done, plan);
    StepOfStretch(again, i, last);
    StepOfStretch(done, i, last);
  }

  /** A turn sets its plan's timer, and only one that is really over while nothing drains. */
  lemma TurnSetsTimer(s: State, plan: Option<Plan>, over: bool, draining: bool)
    ensures var s' := Apply(s, Ended(plan, over, draining));
            if plan.None? || !over || draining then s' == s
            else plan.value in s'.timers && s'.timers[plan.value] == s.made && s.made in s'.live && s'.live[s.made] == plan.value && !s'.stopped
                 && s'.stretches == s.stretches && s'.awaitingEvidence == s.awaitingEvidence && s'.inFlight == s.inFlight
  {
  }

  /** A timer begins one stretch of its plan, which skips to the end when the plan is dormant, and is gone. */
  lemma TimerBeginsStretch(s: State, timer: nat, dormant: bool)
    requires timer in s.live
    ensures var s', plan := Apply(s, Fire(timer, dormant)), s.live[timer];
            && s'.stretches == s.stretches + [Stretch(plan, Stops(s, plan), if dormant then Ending else Checking)]
            && timer !in s'.live && plan !in s'.timers && s'.inFlight == s.inFlight
  {
  }

  /** A stop clears the plan's timer and counts; a forget does that and drops the wait for evidence; nothing else of any plan changes. */
  lemma StopAndForget(s: State, plan: Plan)
    ensures var stopped, forgotten := Apply(s, Stopped(plan)), Apply(s, Forget(plan));
            && plan !in stopped.timers && plan !in forgotten.timers
            && (forall p :: Stops(stopped, p) == Stops(s, p) + (if p == plan then 1 else 0) && Stops(forgotten, p) == Stops(stopped, p))
            && stopped.awaitingEvidence == s.awaitingEvidence && forgotten.awaitingEvidence == s.awaitingEvidence - {plan}
            && stopped.stretches == forgotten.stretches == s.stretches && stopped.inFlight == forgotten.inFlight == s.inFlight
            && (forall p :: p != plan ==> (p in stopped.timers <==> p in s.timers) && (p in forgotten.timers <==> p in s.timers))
  {
  }

  /** A settle asked for from outside goes out exactly when none is out for the plan and nothing refuses it, and lands once. */
  lemma OutsideSettles(s: State, plan: Plan, env: Env, landing: Env)
    requires plan !in s.outside
    ensures var sent := Apply(s, Settle(plan, env));
            && (plan in sent.outside <==> !env.draining && !env.refused && plan !in s.inFlight)
            && (plan !in sent.outside ==> sent == s)
            && (plan in sent.outside ==>
                var landed := Apply(sent, Land(plan, landing));
                && plan in sent.inFlight && plan !in landed.inFlight && plan !in landed.outside
                && (plan in landed.awaitingEvidence <==> StillMissing(plan in s.awaitingEvidence, landing.missing)))
  {
  }
}
