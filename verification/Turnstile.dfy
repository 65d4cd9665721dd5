/**
 * The order a replay hands out what was recorded: each entry goes out once all recorded before it
 * have gone, and one that never comes is skipped when another has waited on it long enough.
 */
module Turnstile {
  import opened Wrappers

  datatype Slot = Slot(queue: string, index: nat)

  /** `left` lists the positions in the order they went, served or skipped. */
  datatype State = State(
    order: seq<Slot>, gone: set<nat>, next: nat, nextSince: int, last: Option<(Slot, int)>, skipped: seq<Slot>, left: seq<nat>)

  datatype Answer = Go | Abandoned | Sleep

  /** Where an entry stands in the recorded order; the last place, if it was recorded twice. */
  function Place(order: seq<Slot>, slot: Slot): (p: Option<nat>)
    ensures p.Some? ==> p.value < |order| && order[p.value] == slot
    ensures p.None? ==> slot !in order
  {
    if order == [] then None
    else if order[|order| - 1] == slot then Some(|order| - 1)
    else Place(order[..|order| - 1], slot)
  }

  /** The least position from `from` on that is not gone. */
  function Least(gone: set<nat>, from: nat, size: nat): (n: nat)
    requires from <= size
    ensures from <= n <= size && (n < size ==> n !in gone) && forall k :: from <= k < n ==> k in gone
    decreases size - from
  {
    if from < size && from in gone then Least(gone, from + 1, size) else from
  }

  /** How many of the positions before `p` are not gone. */
  function Ahead(gone: set<nat>, p: nat): nat {
    if p == 0 then 0 else Ahead(gone, p - 1) + if p - 1 in gone then 0 else 1
  }

  /** The next position is the least not gone, and only recorded positions go. */
  predicate WellPlaced(s: State) {
    && (forall k :: k in s.gone ==> k < |s.order|)
    && s.next == Least(s.gone, 0, |s.order|)
  }

  predicate Due(s: State, slot: Slot) {
    match Place(s.order, slot)
    case None => true
    case Some(p) => p <= s.next || p in s.gone
  }

  function Advance(s: State, now: int): State {
    var next := Least(s.gone, 0, |s.order|);
    if next == s.next then s else s.(next := next, nextSince := now)
  }

  function Log(s: State, p: nat): seq<nat> {
    if p in s.gone then s.left else s.left + [p]
  }

  function Served(s: State, slot: Slot, now: int): State {
    match Place(s.order, slot)
    case None => s
    case Some(p) => Advance(s.(gone := s.gone + {p}, last := Some((slot, now)), left := Log(s, p)), now)
  }

  function Unserved(s: State, slot: Slot, now: int): State {
    match Place(s.order, slot)
    case None => s
    case Some(p) => Advance(s.(gone := s.gone - {p}), now)
  }

  function Skip(s: State, now: int): State
    requires s.next < |s.order|
  {
    Advance(s.(gone := s.gone + {s.next}, skipped := s.skipped + [s.order[s.next]], left := Log(s, s.next)), now)
  }

  function Later(a: int, b: int): int {
    if a > b then a else b
  }

  lemma SkipAdvances(s: State, now: int)
    requires WellPlaced(s) && s.next < |s.order|
    ensures WellPlaced(Skip(s, now)) && Skip(s, now).next > s.next && Skip(s, now).order == s.order
  {
    assert s.next in Skip(s, now).gone;
  }

  /** A waiting request's look at the order, up to where it goes, gives up or sleeps. */
  function Look(s: State, slot: Slot, arrived: int, now: int, aborted: bool, patience: Slot -> int): (State, Answer)
    requires WellPlaced(s)
    decreases |s.order| - s.next
  {
    if Due(s, slot) then (s, Go)
    else if aborted then (s, Abandoned)
    else if now - Later(s.nextSince, arrived) >= patience(s.order[s.next]) then
      SkipAdvances(s, now);
      Look(Skip(s, now), slot, arrived, now, aborted, patience)
    else (s, Sleep)
  }

  class Turnstile {
    const order: seq<Slot>
    const patience: Slot -> int
    const place: map<Slot, nat>
    var gone: set<nat>
    var next: nat
    var nextSince: int
    var last: Option<(Slot, int)>
    var skipped: seq<Slot>
    ghost var left: seq<nat>

    ghost predicate PlacesKnown()
    {
      forall slot :: if slot in place then Place(order, slot) == Some(place[slot]) else Place(order, slot).None?
    }

    ghost predicate Valid()
      reads this
    {
      PlacesKnown() && WellPlaced(Value())
    }

    ghost function Value(): State
      reads this
    {
      State(order, gone, next, nextSince, last, skipped, left)
    }

    constructor (order: seq<Slot>, patience: Slot -> int, now: int)
      ensures Valid() && this.order == order && this.patience == patience
      ensures Value() == State(order, {}, 0, now, None, [], [])
      ensures InOrder(Value())
    {
      var places: map<Slot, nat> := map[];
      for position := 0 to |order|
        invariant forall slot :: if slot in places then Place(order[..position], slot) == Some(places[slot]) else Place(order[..position], slot).None?
      {
        assert order[..position + 1][..position] == order[..position];
        places := places[order[position] := position];
      }
      assert order[..|order|] == order;
      this.order, this.patience, place := order, patience, places;
      gone, next, nextSince, last, skipped, left := {}, 0, now, None, [], [];
    }

    /** `due` */
    predicate IsDue(slot: Slot)
      requires Valid()
      reads this
      ensures IsDue(slot) <==> Due(Value(), slot)
    {
      slot !in place || place[slot] <= next || place[slot] in gone
    }

    /** `served` */
    method Serve(slot: Slot, now: int)
      requires Valid()
      modifies this
      ensures Valid() && Value() == Served(old(Value()), slot, now)
    {
      if slot !in place { return; }
      left := Log(Value(), place[slot]);
      gone := gone + {place[slot]};
      last := Some((order[place[slot]], now));
      MoveOn(now);
    }

    /** `unserved`: an entry given back is in line again. */
    method GiveBack(slot: Slot, now: int)
      requires Valid()
      modifies this
      ensures Valid() && Value() == Unserved(old(Value()), slot, now)
    {
      if slot !in place { return; }
      gone := gone - {place[slot]};
      MoveOn(now);
    }

    /** `wait`, from one sleep to the next. */
    method Await(slot: Slot, arrived: int, now: int, aborted: bool) returns (answer: Answer)
      requires Valid()
      modifies this
      ensures Valid() && (Value(), answer) == Look(old(Value()), slot, arrived, now, aborted, patience)
    {
      while !IsDue(slot)
        invariant Valid()
        invariant Look(Value(), slot, arrived, now, aborted, patience) == Look(old(Value()), slot, arrived, now, aborted, patience)
        decreases |order| - next
      {
        if aborted { return Abandoned; }
        if now - Later(nextSince, arrived) < patience(order[next]) { return Sleep; }
        SkipAdvances(Value(), now);
        skipped := skipped + [order[next]];
        left := Log(Value(), next);
        gone := gone + {next};
        MoveOn(now);
      }
      return Go;
    }

    /** `advance` */
    method MoveOn(now: int)
      requires PlacesKnown() && (forall k :: k in gone ==> k < |order|)
      modifies this`next, this`nextSince
      ensures Valid() && Value() == Advance(old(Value()), now)
    {
      var least := 0;
      while least in gone
        invariant least <= |order| && Least(gone, least, |order|) == Least(gone, 0, |order|)
        decreases |order| - least
      {
        least := least + 1;
      }
      if least == next { return; }
      next, nextSince := least, now;
    }
  }

  /**
   * The first entry skipped at a look has stood next, and the request has waited, for the patience
   * it is given. The next one comes up only then, so one that is given any patience at all is not
   * skipped at the same look.
   */
  lemma {:induction false} SkipsInTime(s: State, slot: Slot, arrived: int, now: int, aborted: bool, patience: Slot -> int)
    requires WellPlaced(s)
    ensures var s' := Look(s, slot, arrived, now, aborted, patience).0;
            s' == s ||
            (&& s.next < |s.order| && |s.skipped| < |s'.skipped| && s'.skipped[..|s.skipped| + 1] == s.skipped + [s.order[s.next]]
             && now >= s.nextSince + patience(s.order[s.next]) && now >= arrived + patience(s.order[s.next])
             && s'.nextSince == now
             && forall k :: |s.skipped| < k < |s'.skipped| ==> patience(s'.skipped[k]) <= 0)
    decreases |s.order| - s.next
  {
    if !Due(s, slot) && !aborted && now - Later(s.nextSince, arrived) >= patience(s.order[s.next]) {
      SkipAdvances(s, now);
      var s1 := Skip(s, now);
      SkipsInTime(s1, slot, arrived, now, aborted, patience);
      var s' := Look(s1, slot, arrived, now, aborted, patience).0;
      if s' != s1 {
        assert s1.skipped == s.skipped + [s.order[s.next]];
        assert s'.skipped[..|s1.skipped| + 1][..|s1.skipped|] == s1.skipped;
        assert s'.skipped[|s1.skipped|] == s1.order[s1.next];
      }
    }
  }

  // ---- What a waiting request is told ----

  ghost predicate LastAt(order: seq<Slot>, slot: Slot, p: nat) {
    p < |order| && order[p] == slot && forall q :: p < q < |order| ==> order[q] != slot
  }

  /** The entry was not recorded, has gone, or everything recorded before it has. */
  ghost predicate Clear(s: State, slot: Slot) {
    slot !in s.order || exists p :: LastAt(s.order, slot, p) && (p in s.gone || forall q: nat :: q < p ==> q in s.gone)
  }

  lemma {:induction false} PlaceIsLast(order: seq<Slot>, slot: Slot)
    ensures match Place(order, slot) case None => slot !in order case Some(p) => LastAt(order, slot, p)
  {
    if order != [] && order[|order| - 1] != slot {
      PlaceIsLast(order[..|order| - 1], slot);
      assert order == order[..|order| - 1] + [order[|order| - 1]];
    }
  }

  lemma DueIsClear(s: State, slot: Slot)
    requires WellPlaced(s)
    ensures Due(s, slot) <==> Clear(s, slot)
  {
    PlaceIsLast(s.order, slot);
    if Place(s.order, slot).Some? {
      var p := Place(s.order, slot).value;
      if Clear(s, slot) && p > s.next {
        var p' :| LastAt(s.order, slot, p') && (p' in s.gone || forall q: nat :: q < p' ==> q in s.gone);
        assert p' == p;
      }
    }
  }

  /**
   * In the state a look leaves: a request goes exactly when its entry is clear, gives up exactly
   * when it is aborted before that, and sleeps only while the entry next in line has not stood
   * there, or the request has not waited, for the patience it is given.
   */
  lemma {:induction false} AnswerMeans(s: State, slot: Slot, arrived: int, now: int, aborted: bool, patience: Slot -> int)
    requires WellPlaced(s)
    ensures var (s', answer) := Look(s, slot, arrived, now, aborted, patience);
            && (answer == Go <==> Clear(s', slot))
            && (answer == Abandoned <==> aborted && !Clear(s', slot))
            && (aborted ==> s' == s)
            && (answer == Sleep ==>
                s'.next < |s'.order| && s'.next !in s'.gone
                && (now < s'.nextSince + patience(s'.order[s'.next]) || now < arrived + patience(s'.order[s'.next])))
    decreases |s.order| - s.next
  {
    DueIsClear(s, slot);
    if !Due(s, slot) && !aborted && now - Later(s.nextSince, arrived) >= patience(s.order[s.next]) {
      SkipAdvances(s, now);
      AnswerMeans(Skip(s, now), slot, arrived, now, aborted, patience);
    }
  }

  /** An entry served has gone, given back it has not; no other entry is touched, and the clock of the next starts when it comes up. */
  lemma ServedAndGivenBack(s: State, slot: Slot, p: nat, now: int)
    requires WellPlaced(s) && LastAt(s.order, slot, p)
    ensures var s' := Served(s, slot, now);
            && WellPlaced(s') && s'.gone == s.gone + {p} && s'.order == s.order && Clear(s', slot)
            && s'.left == (if p in s.gone then s.left else s.left + [p]) && s'.nextSince == (if s'.next == s.next then s.nextSince else now)
    ensures var s' := Unserved(s, slot, now);
            && WellPlaced(s') && s'.gone == s.gone - {p} && s'.order == s.order && s'.left == s.left
            && s'.nextSince == (if s'.next == s.next then s.nextSince else now)
  {
    PlaceIsLast(s.order, slot);
    var s' := Served(s, slot, now);
    assert LastAt(s'.order, slot, p) && p in s'.gone;
  }

  /** The recording replayed as it was shot: the entry next in line goes as soon as it is asked for, and served it lets the one after it go. */
  lemma NextInLineGoes(s: State, arrived: int, now: int, aborted: bool, patience: Slot -> int, served: int)
    requires InOrder(s) && s.next < |s.order| && LastAt(s.order, s.order[s.next], s.next)
    ensures Look(s, s.order[s.next], arrived, now, aborted, patience) == (s, Go)
    ensures var s' := Served(s, s.order[s.next], served); InOrder(s') && s'.next == s.next + 1 && s'.nextSince == served
  {
    var slot := s.order[s.next];
    PlaceIsLast(s.order, slot);
    NextGoes(s, s.(gone := s.gone + {s.next}, last := Some((slot, served)), left := Log(s, s.next)), served);
  }

  // ---- Whole replays ----

  datatype Step = Serve(slot: Slot, now: int) | GiveBack(slot: Slot, now: int) | Await(slot: Slot, arrived: int, now: int, aborted: bool)

  function Apply(s: State, step: Step, patience: Slot -> int): State
    requires WellPlaced(s)
  {
    match step
    case Serve(slot, now) => Served(s, slot, now)
    case GiveBack(slot, now) => Unserved(s, slot, now)
    case Await(slot, arrived, now, aborted) => Look(s, slot, arrived, now, aborted, patience).0
  }

  lemma {:induction false} LookKeeps(s: State, slot: Slot, arrived: int, now: int, aborted: bool, patience: Slot -> int)
    requires WellPlaced(s)
    ensures WellPlaced(Look(s, slot, arrived, now, aborted, patience).0) && Look(s, slot, arrived, now, aborted, patience).0.order == s.order
    decreases |s.order| - s.next
  {
    if !Due(s, slot) && !aborted && now - Later(s.nextSince, arrived) >= patience(s.order[s.next]) {
      SkipAdvances(s, now);
      LookKeeps(Skip(s, now), slot, arrived, now, aborted, patience);
    }
  }

  lemma StepKeeps(s: State, step: Step, patience: Slot -> int)
    requires WellPlaced(s)
    ensures WellPlaced(Apply(s, step, patience)) && Apply(s, step, patience).order == s.order
  {
    if step.Await? { LookKeeps(s, step.slot, step.arrived, step.now, step.aborted, patience); }
  }

  /** After any steps the next position is the least not gone. */
  function Run(s: State, steps: seq<Step>, patience: Slot -> int): (r: State)
    requires WellPlaced(s)
    ensures WellPlaced(r) && r.order == s.order
  {
    if steps == [] then s
    else
      var before := Run(s, steps[..|steps| - 1], patience);
      StepKeeps(before, steps[|steps| - 1], patience);
      Apply(before, steps[|steps| - 1], patience)
  }

  // ---- In recorded order ----

  function Upto(n: nat): seq<nat> {
    seq(n, i => i)
  }

  /** Just the positions before the next have gone, in recorded order and each once. */
  ghost predicate InOrder(s: State) {
    && WellPlaced(s) && s.left == Upto(s.next)
    && forall k: nat :: k in s.gone <==> k < s.next
  }

  /** Entries are served only when they are due, and none is given back. */
  predicate Orderly(s: State, steps: seq<Step>, patience: Slot -> int)
    requires WellPlaced(s)
  {
    steps == [] ||
    (Orderly(s, steps[..|steps| - 1], patience) &&
     match steps[|steps| - 1]
     case Serve(slot, _) => Due(Run(s, steps[..|steps| - 1], patience), slot)
     case GiveBack(_, _) => false
     case Await(_, _, _, _) => true)
  }

  lemma NextGoes(s: State, s': State, now: int)
    requires InOrder(s) && s.next < |s.order|
    requires s'.order == s.order && s'.gone == s.gone + {s.next} && s'.next == s.next && s'.left == s.left + [s.next]
    ensures InOrder(Advance(s', now)) && Advance(s', now).next == s.next + 1
  {
    var after := Advance(s', now);
    assert s.next + 1 !in s'.gone;
    assert after.next == s.next + 1;
    assert Upto(s.next + 1) == Upto(s.next) + [s.next];
  }

  lemma ServeInOrder(s: State, slot: Slot, now: int)
    requires InOrder(s) && Due(s, slot)
    ensures InOrder(Served(s, slot, now))
  {
    match Place(s.order, slot)
    case None =>
    case Some(p) =>
      if p == s.next {
        NextGoes(s, s.(gone := s.gone + {p}, last := Some((slot, now)), left := Log(s, p)), now);
      } else {
        assert s.gone + {p} == s.gone;
      }
  }

  lemma SkipInOrder(s: State, now: int)
    requires InOrder(s) && s.next < |s.order|
    ensures InOrder(Skip(s, now))
  {
    NextGoes(s, s.(gone := s.gone + {s.next}, skipped := s.skipped + [s.order[s.next]], left := Log(s, s.next)), now);
  }

  lemma {:induction false} LookInOrder(s: State, slot: Slot, arrived: int, now: int, aborted: bool, patience: Slot -> int)
    requires InOrder(s)
    ensures InOrder(Look(s, slot, arrived, now, aborted, patience).0)
    decreases |s.order| - s.next
  {
    if !Due(s, slot) && !aborted && now - Later(s.nextSince, arrived) >= patience(s.order[s.next]) {
      SkipAdvances(s, now);
      SkipInOrder(s, now);
      LookInOrder(Skip(s, now), slot, arrived, now, aborted, patience);
    }
  }

  /** An orderly replay hands everything out in the recorded order, each entry once, served or skipped. */
  lemma {:induction false} OrderlyInOrder(s: State, steps: seq<Step>, patience: Slot -> int)
    requires InOrder(s) && Orderly(s, steps, patience)
    ensures InOrder(Run(s, steps, patience))
  {
    assert WellPlaced(s);
    hide InOrder, Apply, Due;
    if steps != [] {
      var before := Run(s, steps[..|steps| - 1], patience);
      OrderlyInOrder(s, steps[..|steps| - 1], patience);
      StepInOrder(before, steps[|steps| - 1], patience);
    }
  }

  lemma StepInOrder(s: State, step: Step, patience: Slot -> int)
    requires InOrder(s) && !step.GiveBack? && (step.Serve? ==> Due(s, step.slot))
    ensures InOrder(Apply(s, step, patience))
  {
    hide InOrder, Due, Served;
    match step
    case Serve(slot, now) => ServeInOrder(s, slot, now);
    case Await(slot, arrived, now, aborted) => LookInOrder(s, slot, arrived, now, aborted, patience);
  }

  /** Nothing is given back, and an entry is served only once a request for it was told to go. */
  ghost predicate ServedAfterGo(s: State, steps: seq<Step>, patience: Slot -> int)
    requires WellPlaced(s)
  {
    forall k :: 0 <= k < |steps| ==> !steps[k].GiveBack? && (steps[k].Serve? ==> exists j: nat :: ToldToGo(s, steps, j, k, patience))
  }

  ghost predicate ToldToGo(s: State, steps: seq<Step>, j: nat, k: nat, patience: Slot -> int)
    requires WellPlaced(s) && k < |steps| && steps[k].Serve?
  {
    && j < k && steps[j].Await? && steps[j].slot == steps[k].slot
    && Look(Run(s, steps[..j], patience), steps[j].slot, steps[j].arrived, steps[j].now, steps[j].aborted, patience).1 == Go
  }

  lemma LeastGrows(gone: set<nat>, more: set<nat>, size: nat)
    requires gone <= more
    ensures Least(gone, 0, size) <= Least(more, 0, size)
  {
    var m := Least(more, 0, size);
    assert m < Least(gone, 0, size) ==> m in gone;
  }

  lemma StepGrows(s: State, step: Step, patience: Slot -> int)
    requires WellPlaced(s) && !step.GiveBack?
    ensures var s' := Apply(s, step, patience); s.gone <= s'.gone && s.next <= s'.next
  {
    hide Look;
    var s' := Apply(s, step, patience);
    StepKeeps(s, step, patience);
    if step.Await? { LookLeaves(s, 0, step.slot, step.arrived, step.now, step.aborted, patience); }
    LeastGrows(s.gone, s'.gone, |s.order|);
  }

  /** What was due once stays due while nothing is given back. */
  lemma {:induction false} DueStays(s: State, steps: seq<Step>, j: nat, slot: Slot, patience: Slot -> int)
    requires WellPlaced(s) && j <= |steps| && (forall k :: 0 <= k < |steps| ==> !steps[k].GiveBack?)
    requires Due(Run(s, steps[..j], patience), slot)
    ensures Due(Run(s, steps, patience), slot)
  {
    if j == |steps| {
      assert steps[..j] == steps;
    } else {
      var init := steps[..|steps| - 1];
      assert init[..j] == steps[..j];
      DueStays(s, init, j, slot, patience);
      StepGrows(Run(s, init, patience), steps[|steps| - 1], patience);
    }
  }

  lemma GoMeansDue(s: State, step: Step, patience: Slot -> int)
    requires WellPlaced(s) && step.Await? && Look(s, step.slot, step.arrived, step.now, step.aborted, patience).1 == Go
    ensures Due(Apply(s, step, patience), step.slot)
  {
    hide Look;
    StepKeeps(s, step, patience);
    AnswerMeans(s, step.slot, step.arrived, step.now, step.aborted, patience);
    DueIsClear(Apply(s, step, patience), step.slot);
  }

  lemma RunNext(s: State, steps: seq<Step>, j: nat, patience: Slot -> int)
    requires WellPlaced(s) && j < |steps|
    ensures Run(s, steps[..j + 1], patience) == Apply(Run(s, steps[..j], patience), steps[j], patience)
  {
    assert steps[..j + 1][..j] == steps[..j];
  }

  /** In a replay that asks first and gives nothing back, everything goes in the recorded order, each entry once, served or skipped. */
  lemma {:induction false} AskedFirstInOrder(s: State, steps: seq<Step>, patience: Slot -> int)
    requires InOrder(s) && ServedAfterGo(s, steps, patience)
    ensures InOrder(Run(s, steps, patience))
  {
    assert WellPlaced(s);
    hide InOrder, Due, Look, Served, Apply;
    if steps != [] {
      var n := |steps| - 1;
      AskedBefore(s, steps, patience);
      AskedFirstInOrder(s, steps[..n], patience);
      if steps[n].Serve? { AskedLast(s, steps, patience); }
      StepInOrder(Run(s, steps[..n], patience), steps[n], patience);
    }
  }

  lemma AskedBefore(s: State, steps: seq<Step>, patience: Slot -> int)
    requires WellPlaced(s) && steps != [] && ServedAfterGo(s, steps, patience)
    ensures ServedAfterGo(s, steps[..|steps| - 1], patience)
  {
    hide Look, Run;
    var init := steps[..|steps| - 1];
    forall k | 0 <= k < |init|
      ensures !init[k].GiveBack? && (init[k].Serve? ==> exists j: nat :: ToldToGo(s, init, j, k, patience))
    {
      assert init[k] == steps[k];
      if steps[k].Serve? {
        var j: nat :| ToldToGo(s, steps, j, k, patience);
        assert init[..j] == steps[..j];
        assert ToldToGo(s, init, j, k, patience);
      }
    }
  }

  lemma AskedLast(s: State, steps: seq<Step>, patience: Slot -> int)
    requires WellPlaced(s) && steps != [] && ServedAfterGo(s, steps, patience) && steps[|steps| - 1].Serve?
    ensures Due(Run(s, steps[..|steps| - 1], patience), steps[|steps| - 1].slot)
  {
    hide Look, Due, Apply, Run;
    var n := |steps| - 1;
    var init := steps[..n];
    var j: nat :| ToldToGo(s, steps, j, n, patience);
    GoMeansDue(Run(s, steps[..j], patience), steps[j], patience);
    RunNext(s, steps, j, patience);
    assert init[..j + 1] == steps[..j + 1];
    DueStays(s, init, j + 1, steps[n].slot, patience);
  }

  // ---- Given back ----

  lemma {:induction false} LookLeaves(s: State, p: nat, slot: Slot, arrived: int, now: int, aborted: bool, patience: Slot -> int)
    requires WellPlaced(s)
    ensures var s' := Look(s, slot, arrived, now, aborted, patience).0;
            && s.left <= s'.left && s.gone <= s'.gone
            && (p in s'.gone && p !in s.gone ==> p in s'.left[|s.left|..])
    decreases |s.order| - s.next
  {
    if !Due(s, slot) && !aborted && now - Later(s.nextSince, arrived) >= patience(s.order[s.next]) {
      SkipAdvances(s, now);
      var s1, s' := Skip(s, now), Look(s, slot, arrived, now, aborted, patience).0;
      LookLeaves(s1, p, slot, arrived, now, aborted, patience);
      if p in s1.gone && p !in s.gone { assert s'.left[|s.left|] == p; }
      if p in s'.gone && p !in s1.gone { assert s'.left[|s.left|..][|s1.left| - |s.left|..] == s'.left[|s1.left|..]; }
    }
  }

  /** Nothing goes without being noted as it goes. */
  lemma {:induction false} LeavesByLog(s: State, steps: seq<Step>, p: nat, patience: Slot -> int)
    requires WellPlaced(s)
    ensures var s' := Run(s, steps, patience);
            && s.left <= s'.left
            && (p in s'.gone && p !in s.gone ==> p in s'.left[|s.left|..])
  {
    hide Apply;
    if steps != [] {
      var before := Run(s, steps[..|steps| - 1], patience);
      LeavesByLog(s, steps[..|steps| - 1], p, patience);
      StepLeaves(before, steps[|steps| - 1], p, patience);
      Added(s.left, before.left, Run(s, steps, patience).left);
    }
  }

  lemma StepLeaves(s: State, step: Step, p: nat, patience: Slot -> int)
    requires WellPlaced(s)
    ensures var s' := Apply(s, step, patience);
            && s.left <= s'.left
            && (p in s'.gone && p !in s.gone ==> p in s'.left[|s.left|..])
  {
    hide Look;
    if step.Await? { LookLeaves(s, p, step.slot, step.arrived, step.now, step.aborted, patience); }
  }

  lemma Added<T>(a: seq<T>, b: seq<T>, c: seq<T>)
    requires a <= b <= c
    ensures a <= c && c[|a|..] == b[|a|..] + c[|b|..]
  {
  }

  /** Until an entry given back has gone again, no later one is due that had not gone yet. */
  lemma GivenBackBlocks(s: State, slot: Slot, now: int, steps: seq<Step>, later: Slot, patience: Slot -> int)
    requires WellPlaced(s) && Place(s.order, slot).Some? && Place(s.order, later).Some?
    requires Place(s.order, slot).value < Place(s.order, later).value
    ensures var p, q := Place(s.order, slot).value, Place(s.order, later).value;
            var back := Unserved(s, slot, now);
            && WellPlaced(back) && back.next <= p
            && var s' := Run(back, steps, patience);
            && |back.left| <= |s'.left|
            && (p !in s'.left[|back.left|..] && q !in s'.gone ==> !Due(s', later))
  {
    var p, q := Place(s.order, slot).value, Place(s.order, later).value;
    var back := Unserved(s, slot, now);
    LeavesByLog(back, steps, p, patience);
    var s' := Run(back, steps, patience);
    assert p !in back.gone;
    if p !in s'.gone { assert s'.next <= p; }
  }

  // ---- Skips ----

  lemma {:induction false} AheadFalls(gone: set<nat>, k: nat, p: nat)
    requires k !in gone
    ensures Ahead(gone + {k}, p) == Ahead(gone, p) - if k < p then 1 else 0
  {
    if p > 0 { AheadFalls(gone, k, p - 1); }
  }

  lemma {:induction false} AheadRises(gone: set<nat>, k: nat, p: nat)
    ensures Ahead(gone - {k}, p) <= Ahead(gone, p) + if k < p then 1 else 0
    ensures Ahead(gone + {k}, p) <= Ahead(gone, p)
  {
    if p > 0 { AheadRises(gone, k, p - 1); }
  }

  lemma {:induction false} LookSkips(s: State, slot: Slot, arrived: int, now: int, aborted: bool, patience: Slot -> int, p: nat)
    requires WellPlaced(s)
    ensures var s' := Look(s, slot, arrived, now, aborted, patience).0;
            && |s.skipped| <= |s'.skipped| && Ahead(s'.gone, p) <= Ahead(s.gone, p)
            && (Place(s.order, slot) == Some(p) ==> |s'.skipped| - |s.skipped| == Ahead(s.gone, p) - Ahead(s'.gone, p))
    decreases |s.order| - s.next
  {
    if !Due(s, slot) && !aborted && now - Later(s.nextSince, arrived) >= patience(s.order[s.next]) {
      SkipAdvances(s, now);
      AheadFalls(s.gone, s.next, p);
      LookSkips(Skip(s, now), slot, arrived, now, aborted, patience, p);
    }
  }

  /** The skips that requests for an entry made while they waited. */
  function SkipsFor(s: State, steps: seq<Step>, slot: Slot, patience: Slot -> int): int
    requires WellPlaced(s)
  {
    if steps == [] then 0
    else
      var before, step := Run(s, steps[..|steps| - 1], patience), steps[|steps| - 1];
      SkipsFor(s, steps[..|steps| - 1], slot, patience)
      + if step.Await? && step.slot == slot then |Apply(before, step, patience).skipped| - |before.skipped| else 0
  }

  /** How often an entry ahead of `p` was given back. */
  function GivenBack(order: seq<Slot>, steps: seq<Step>, p: nat): nat {
    if steps == [] then 0
    else
      GivenBack(order, steps[..|steps| - 1], p)
      + match steps[|steps| - 1]
        case GiveBack(slot, _) => if Place(order, slot).Some? && Place(order, slot).value < p then 1 else 0
        case _ => 0
  }

  /**
   * However requests interleave, those waiting for one entry skip no more than the entries ahead of
   * it, plus those given back in the meantime.
   */
  lemma {:induction false} SkipsAtMostAhead(s: State, steps: seq<Step>, slot: Slot, p: nat, patience: Slot -> int)
    requires WellPlaced(s) && Place(s.order, slot) == Some(p)
    ensures SkipsFor(s, steps, slot, patience) + Ahead(Run(s, steps, patience).gone, p) <= Ahead(s.gone, p) + GivenBack(s.order, steps, p)
  {
    if steps != [] {
      SkipsAtMostAhead(s, steps[..|steps| - 1], slot, p, patience);
      var before, step := Run(s, steps[..|steps| - 1], patience), steps[|steps| - 1];
      StepSkips(before, step, slot, p, patience);
    }
  }

  lemma StepSkips(s: State, step: Step, slot: Slot, p: nat, patience: Slot -> int)
    requires WellPlaced(s) && Place(s.order, slot) == Some(p)
    ensures (if step.Await? && step.slot == slot then |Apply(s, step, patience).skipped| - |s.skipped| else 0) + Ahead(Apply(s, step, patience).gone, p)
            <= Ahead(s.gone, p)
               + if step.GiveBack? && Place(s.order, step.slot).Some? && Place(s.order, step.slot).value < p then 1 else 0
  {
    hide Ahead;
    match step
    case Serve(other, now) => if Place(s.order, other).Some? { AheadRises(s.gone, Place(s.order, other).value, p); }
    case GiveBack(other, now) => if Place(s.order, other).Some? { AheadRises(s.gone, Place(s.order, other).value, p); }
    case Await(other, arrived, now, aborted) => LookSkips(s, other, arrived, now, aborted, patience, p);
  }
}
