/**
 * Filing a session's messages one at a time, in the order they arrived: each waits for the promise
 * the one before it left in the chain.
 */
module FilingOrder {
  import opened Wrappers

  type Session = string

  datatype Phase = Waiting | Filing | Settled

  /** A call to `organizeMessage`: the run it waits for, if any, and how far it is. */
  datatype Filer = Filer(session: Session, waitsFor: Option<nat>, phase: Phase)

  /** A promise: that of a run, or the one made of it by catching its failure. */
  datatype Promise = OfRun(run: nat) | Caught(run: nat)

  /** `begun` lists the runs in the order in which they began to file. */
  datatype State = State(chains: map<Session, Promise>, runs: seq<Filer>, begun: seq<nat>)

  function Arrived(s: State, session: Session): State {
    var previous := if session in s.chains then Some(s.chains[session].run) else None;
    s.(runs := s.runs + [Filer(session, previous, Waiting)], chains := s.chains[session := Caught(|s.runs|)])
  }

  predicate MayBegin(s: State, i: nat) {
    && i < |s.runs| && s.runs[i].phase == Waiting
    && match s.runs[i].waitsFor
       case None => true
       case Some(p) => p < |s.runs| && s.runs[p].phase == Settled
  }

  function Begun(s: State, i: nat): State
    requires i < |s.runs|
  {
    s.(runs := s.runs[i := s.runs[i].(phase := Filing)], begun := s.begun + [i])
  }

  /** Filed or failed alike. The entry goes only if it still is the run's own promise. */
  function Ended(s: State, i: nat): State
    requires i < |s.runs|
  {
    var session := s.runs[i].session;
    var settled := s.(runs := s.runs[i := s.runs[i].(phase := Settled)]);
    if session in s.chains && s.chains[session] == OfRun(i) then settled.(chains := s.chains - {session}) else settled
  }

  class Chains {
    var chains: map<Session, Promise>
    // The suspended calls.
    var runs: seq<Filer>
    ghost var begun: seq<nat>

    ghost function Value(): State
      reads this
    {
      State(chains, runs, begun)
    }

    constructor ()
      ensures Value() == State(map[], [], [])
    {
      chains, runs, begun := map[], [], [];
    }

    /** `organizeMessage` up to its wait. */
    method OrganizeMessage(session: Session) returns (run: nat)
      modifies this
      ensures Value() == Arrived(old(Value()), session) && run == |old(runs)|
    {
      run := |runs|;
      var previous := if session in chains then Some(chains[session].run) else None;
      runs := runs + [Filer(session, previous, Waiting)];
      chains := chains[session := Caught(run)];
    }

    /** What it waited for has settled, one way or the other. */
    method Begin(i: nat)
      requires MayBegin(Value(), i)
      modifies this
      ensures Value() == Begun(old(Value()), i)
    {
      runs := runs[i := runs[i].(phase := Filing)];
      begun := begun + [i];
    }

    /** `organizeOne` returned or threw. */
    method Settle(i: nat)
      requires i < |runs| && runs[i].phase == Filing
      modifies this
      ensures Value() == Ended(old(Value()), i)
    {
      var session := runs[i].session;
      runs := runs[i := runs[i].(phase := Settled)];
      if session in chains && chains[session] == OfRun(i) { chains := chains - {session}; }
    }
  }

  // ---- Whole runs ----

  datatype Step = Arrive(session: Session) | Begin(i: nat) | End(i: nat)

  function Apply(s: State, step: Step): State {
    match step
    case Arrive(session) => Arrived(s, session)
    case Begin(i) => if MayBegin(s, i) then Begun(s, i) else s
    case End(i) => if i < |s.runs| && s.runs[i].phase == Filing then Ended(s, i) else s
  }

  function Run(s: State, steps: seq<Step>): State {
    if steps == [] then s else Apply(Run(s, steps[..|steps| - 1]), steps[|steps| - 1])
  }

  const FRESH: State := State(map[], [], [])

  /** The last run of a session before `i`. */
  function LastOf(runs: seq<Filer>, i: nat, session: Session): Option<nat>
    requires i <= |runs|
  {
    if i == 0 then None else if runs[i - 1].session == session then Some(i - 1) else LastOf(runs, i - 1, session)
  }

  /** Every run waits for the last of its session before it. */
  ghost predicate RunsLinked(runs: seq<Filer>) {
    forall i :: 0 <= i < |runs| ==> runs[i].waitsFor == LastOf(runs, i, runs[i].session)
  }

  /** The chains hold each session's last run, with its failure caught. */
  ghost predicate ChainsHold(runs: seq<Filer>, chains: map<Session, Promise>) {
    forall session :: LastOf(runs, |runs|, session) == if session in chains && chains[session].Caught? then Some(chains[session].run) else None
  }

  ghost predicate Linked(s: State) {
    RunsLinked(s.runs) && ChainsHold(s.runs, s.chains) && forall session :: session in s.chains ==> s.chains[session].Caught?
  }

  /** Nothing begins before all earlier runs of its session have settled. */
  ghost predicate OneAtATime(s: State) {
    forall i, j :: 0 <= i < j < |s.runs| && s.runs[i].session == s.runs[j].session && s.runs[j].phase != Waiting ==> s.runs[i].phase == Settled
  }

  /** What has begun is on the list, once, and a session's runs stand on it in the order they arrived. */
  ghost predicate Listed(s: State) {
    && (forall k :: 0 <= k < |s.begun| ==> s.begun[k] < |s.runs| && s.runs[s.begun[k]].phase != Waiting)
    && (forall i :: 0 <= i < |s.runs| && s.runs[i].phase != Waiting ==> i in s.begun)
    && (forall k, l :: 0 <= k < l < |s.begun| && s.runs[s.begun[k]].session == s.runs[s.begun[l]].session ==> s.begun[k] < s.begun[l])
  }

  ghost predicate Inv(s: State) {
    Linked(s) && OneAtATime(s) && Listed(s)
  }

  lemma {:induction false} LastIsLast(runs: seq<Filer>, i: nat, session: Session)
    requires i <= |runs|
    ensures match LastOf(runs, i, session)
            case None => forall j :: 0 <= j < i ==> runs[j].session != session
            case Some(p) => p < i && runs[p].session == session && forall j :: p < j < i ==> runs[j].session != session
  {
    if i > 0 { LastIsLast(runs, i - 1, session); }
  }

  lemma {:induction false} LastSame(runs: seq<Filer>, runs': seq<Filer>, i: nat, session: Session)
    requires i <= |runs| && i <= |runs'| && forall j :: 0 <= j < i ==> runs[j].session == runs'[j].session
    ensures LastOf(runs, i, session) == LastOf(runs', i, session)
  {
    if i > 0 { LastSame(runs, runs', i - 1, session); }
  }

  lemma ArriveKeeps(s: State, session: Session)
    requires Inv(s)
    ensures Inv(Arrived(s, session))
  {
    ArriveLinks(s, session);
    hide Linked, LastOf;
    ArriveLists(s, session);
  }

  lemma ArriveLinks(s: State, session: Session)
    requires Linked(s)
    ensures Linked(Arrived(s, session))
  {
    hide LastOf, RunsLinked, ChainsHold;
    var begun := Filer(session, if session in s.chains then Some(s.chains[session].run) else None, Waiting);
    LastInChain(s.runs, s.chains, session);
    OneMoreLinked(s.runs, begun);
    OneMoreHeld(s.runs, s.chains, begun);
  }

  lemma LastInChain(runs: seq<Filer>, chains: map<Session, Promise>, session: Session)
    requires ChainsHold(runs, chains)
    ensures LastOf(runs, |runs|, session) == if session in chains && chains[session].Caught? then Some(chains[session].run) else None
  {
    hide LastOf;
  }

  lemma OneMoreLinked(runs: seq<Filer>, more: Filer)
    requires RunsLinked(runs) && more.waitsFor == LastOf(runs, |runs|, more.session)
    ensures RunsLinked(runs + [more])
  {
    hide LastOf;
    forall i, session | 0 <= i <= |runs|
      ensures LastOf(runs + [more], i, session) == LastOf(runs, i, session)
    {
      LastSame(runs, runs + [more], i, session);
    }
  }

  lemma OneMoreHeld(runs: seq<Filer>, chains: map<Session, Promise>, more: Filer)
    requires ChainsHold(runs, chains)
    ensures ChainsHold(runs + [more], chains[more.session := Caught(|runs|)])
  {
    forall session
      ensures LastOf(runs + [more], |runs + [more]|, session) == if session == more.session then Some(|runs|) else LastOf(runs, |runs|, session)
    {
      LastSame(runs, runs + [more], |runs|, session);
    }
    hide LastOf;
  }

  lemma ArriveLists(s: State, session: Session)
    requires OneAtATime(s) && Listed(s)
    ensures OneAtATime(Arrived(s, session)) && Listed(Arrived(s, session))
  {
    var s' := Arrived(s, session);
    assert forall i :: 0 <= i < |s.runs| ==> s'.runs[i] == s.runs[i];
    assert s'.begun == s.begun;
  }

  /** A phase changed leaves the links. */
  lemma PhaseKeepsLinks(s: State, s': State, i: nat, phase: Phase)
    requires Linked(s) && i < |s.runs| && s'.runs == s.runs[i := s.runs[i].(phase := phase)] && s'.chains == s.chains
    ensures Linked(s')
  {
    forall j, other | 0 <= j <= |s.runs|
      ensures LastOf(s'.runs, j, other) == LastOf(s.runs, j, other)
    {
      LastSame(s.runs, s'.runs, j, other);
    }
  }

  /** When a run may begin, all earlier ones of its session have settled. */
  lemma EarlierSettled(s: State, i: nat, j: nat)
    requires Inv(s) && MayBegin(s, j) && i < j && s.runs[i].session == s.runs[j].session
    ensures s.runs[i].phase == Settled
  {
    LastIsLast(s.runs, j, s.runs[j].session);
    var p := s.runs[j].waitsFor.value;
    if i != p {
      assert i < p;
    }
  }

  lemma BeginKeeps(s: State, j: nat)
    requires Inv(s) && MayBegin(s, j)
    ensures Inv(Begun(s, j))
  {
    PhaseKeepsLinks(s, Begun(s, j), j, Filing);
    forall i | 0 <= i < j && s.runs[i].session == s.runs[j].session
      ensures s.runs[i].phase == Settled
    {
      EarlierSettled(s, i, j);
    }
    hide Linked;
    BeginLists(s, j);
  }

  lemma BeginLists(s: State, j: nat)
    requires OneAtATime(s) && Listed(s) && j < |s.runs| && s.runs[j].phase == Waiting
    requires forall i :: 0 <= i < j && s.runs[i].session == s.runs[j].session ==> s.runs[i].phase == Settled
    ensures OneAtATime(Begun(s, j)) && Listed(Begun(s, j))
  {
    var s' := Begun(s, j);
    NoneLater(s, j);
    hide OneAtATime;
    assert s'.begun[|s.begun|] == j;
    assert forall k :: 0 <= k < |s.begun| ==> s'.begun[k] == s.begun[k];
    assert forall i :: 0 <= i < |s.runs| ==> s'.runs[i].session == s.runs[i].session;
    forall k | 0 <= k < |s.begun| && s.runs[s.begun[k]].session == s.runs[j].session
      ensures s.begun[k] < j
    {
      assert s.runs[s.begun[k]].phase != Waiting;
    }
  }

  /** Nothing of the session that arrived later has begun before a run that waits. */
  lemma NoneLater(s: State, j: nat)
    requires OneAtATime(s) && j < |s.runs| && s.runs[j].phase == Waiting
    requires forall i :: 0 <= i < j && s.runs[i].session == s.runs[j].session ==> s.runs[i].phase == Settled
    ensures forall i :: j < i < |s.runs| && s.runs[i].session == s.runs[j].session ==> s.runs[i].phase == Waiting
    ensures OneAtATime(Begun(s, j))
  {
  }

  lemma EndKeeps(s: State, i: nat)
    requires Inv(s) && i < |s.runs| && s.runs[i].phase == Filing
    ensures Inv(Ended(s, i)) && Ended(s, i).chains == s.chains
  {
    hide Linked;
    EndKeepsChains(s, i);
    PhaseKeepsLinks(s, Ended(s, i), i, Settled);
    EndLists(s, i);
  }

  /** The entry for a session is never the run's own promise. */
  lemma EndKeepsChains(s: State, i: nat)
    requires Linked(s) && i < |s.runs|
    ensures Ended(s, i).chains == s.chains
  {
    var session := s.runs[i].session;
    LastIsLast(s.runs, |s.runs|, session);
    assert session in s.chains && s.chains[session].Caught?;
  }

  lemma EndLists(s: State, i: nat)
    requires OneAtATime(s) && Listed(s) && i < |s.runs| && s.runs[i].phase == Filing
    ensures OneAtATime(Ended(s, i)) && Listed(Ended(s, i))
  {
    var s' := Ended(s, i);
    assert s'.begun == s.begun;
    assert forall j :: 0 <= j < |s.runs| ==> s'.runs[j].session == s.runs[j].session && (s'.runs[j].phase == Waiting <==> s.runs[j].phase == Waiting);
  }

  /**
   * In every run a session's messages are filed one at a time, in the order they arrived, whether
   * the filings before succeed or fail.
   */
  lemma {:induction false} RunKeeps(steps: seq<Step>)
    ensures Inv(Run(FRESH, steps))
  {
    if steps != [] {
      var before := Run(FRESH, steps[..|steps| - 1]);
      RunKeeps(steps[..|steps| - 1]);
      match steps[|steps| - 1]
      case Arrive(session) => ArriveKeeps(before, session);
      case Begin(i) => if MayBegin(before, i) { BeginKeeps(before, i); }
      case End(i) => if i < |before.runs| && before.runs[i].phase == Filing { EndKeeps(before, i); }
    }
  }

  /** A session once in the chains stays there: what is stored is never the promise its removal looks for. */
  lemma {:induction false} EntryStays(steps: seq<Step>, more: seq<Step>, session: Session)
    requires session in Run(FRESH, steps).chains
    ensures session in Run(FRESH, steps + more).chains
    decreases |more|
  {
    hide Apply, Inv;
    if more == [] {
      assert steps + more == steps;
    } else {
      var all, front := steps + more, more[..|more| - 1];
      assert all[..|all| - 1] == steps + front;
      EntryStays(steps, front, session);
      RunKeeps(steps + front);
      OneStepStays(Run(FRESH, steps + front), more[|more| - 1], session);
    }
  }

  lemma OneStepStays(s: State, step: Step, session: Session)
    requires Inv(s) && session in s.chains
    ensures session in Apply(s, step).chains
  {
    hide Inv;
    if step.End? && step.i < |s.runs| && s.runs[step.i].phase == Filing { EndKeeps(s, step.i); }
  }

  // ---- Nothing waits for nothing ----

  /** A message may be filed exactly when all of its session that arrived before it have been, whatever other sessions do. */
  lemma BeginsExactly(s: State, i: nat)
    requires Inv(s) && i < |s.runs| && s.runs[i].phase == Waiting
    ensures MayBegin(s, i) <==> forall j :: 0 <= j < i && s.runs[j].session == s.runs[i].session ==> s.runs[j].phase == Settled
  {
    LastIsLast(s.runs, i, s.runs[i].session);
    if MayBegin(s, i) {
      forall j | 0 <= j < i && s.runs[j].session == s.runs[i].session
        ensures s.runs[j].phase == Settled
      {
        EarlierSettled(s, j, i);
      }
    }
  }

  /** A filing that is out, and so will end, or one that may begin. */
  predicate MayMove(s: State, i: nat) {
    MayBegin(s, i) || (i < |s.runs| && s.runs[i].phase == Filing)
  }

  /** As long as a message of a session is not filed, one of that session is out or may begin: no order of steps leaves it waiting for nothing. */
  lemma {:induction false} NeverStuck(s: State, i: nat)
    requires Inv(s) && i < |s.runs| && s.runs[i].phase != Settled
    ensures exists j: nat :: j <= i && MayMove(s, j) && s.runs[j].session == s.runs[i].session
  {
    if forall j :: 0 <= j < i && s.runs[j].session == s.runs[i].session ==> s.runs[j].phase == Settled {
      if s.runs[i].phase == Waiting { BeginsExactly(s, i); }
      assert MayMove(s, i);
    } else {
      var j :| 0 <= j < i && s.runs[j].session == s.runs[i].session && s.runs[j].phase != Settled;
      NeverStuck(s, j);
    }
  }

  /** And what may move does: begun it is filed next, ended it is over, whether it was filed or failed. */
  lemma MovesOn(s: State, i: nat)
    requires MayMove(s, i)
    ensures MayBegin(s, i) ==> Apply(s, Begin(i)).runs == s.runs[i := s.runs[i].(phase := Filing)] && Apply(s, Begin(i)).begun == s.begun + [i]
    ensures !MayBegin(s, i) ==> Apply(s, End(i)).runs == s.runs[i := s.runs[i].(phase := Settled)] && Apply(s, End(i)).begun == s.begun
  {
  }
}
