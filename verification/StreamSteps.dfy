/** What a reader can tell from one step of a Messages stream. */
module StreamSteps {
  import opened Wrappers
  import opened MessageStream

  /** The same but for the case of its letters; `small` has none that are capital. */
  predicate IsNamed(reason: string, small: string) {
    |reason| == |small| && forall i :: 0 <= i < |small| ==>
      reason[i] == small[i] || ('a' <= small[i] <= 'z' && reason[i] as int + 32 == small[i] as int)
  }

  predicate IsSmall(s: string) {
    forall i :: 0 <= i < |s| ==> !('A' <= s[i] <= 'Z')
  }

  lemma {:induction false} LowerIs(reason: string, small: string)
    requires IsSmall(small)
    ensures Lower(reason) == small <==> IsNamed(reason, small)
  {
    if reason != "" && small != "" {
      LowerIs(reason[1..], small[1..]);
      assert reason == [reason[0]] + reason[1..] && small == [small[0]] + small[1..];
      assert forall i :: 0 <= i < |small| - 1 ==> small[1..][i] == small[i + 1];
      assert forall i :: 0 <= i < |reason| - 1 ==> reason[1..][i] == reason[i + 1];
      if IsNamed(reason, small) { assert IsNamed(reason[1..], small[1..]); }
      if IsNamed(reason[1..], small[1..]) && Lower(reason)[0] == small[0] {
        forall i | 0 <= i < |small|
          ensures reason[i] == small[i] || ('a' <= small[i] <= 'z' && reason[i] as int + 32 == small[i] as int)
        {
          if i > 0 { assert reason[i] == reason[1..][i - 1] && small[i] == small[1..][i - 1]; }
        }
      }
    }
  }

  lemma {:induction false} LowerIsSmall(reason: string)
    ensures IsSmall(Lower(reason))
  {
    if reason != "" {
      LowerIsSmall(reason[1..]);
      assert forall i :: 0 < i < |Lower(reason)| ==> Lower(reason)[i] == Lower(reason[1..])[i - 1];
    }
  }

  /** A stop reason, in any case, in the words of Chat Completions; one that has none keeps its own, in small letters. */
  lemma FinishMeans(reason: string)
    ensures IsNamed(reason, "end_turn") || IsNamed(reason, "stop_sequence") ==> Finish(reason) == "stop"
    ensures IsNamed(reason, "tool_use") ==> Finish(reason) == "tool_calls"
    ensures IsNamed(reason, "max_tokens") ==> Finish(reason) == "length"
    ensures IsNamed(reason, "model_context_window_exceeded") ==> Finish(reason) == "context_window"
    ensures (forall name :: name in ["end_turn", "stop_sequence", "tool_use", "max_tokens", "model_context_window_exceeded"] ==> !IsNamed(reason, name)) ==>
              IsSmall(Finish(reason)) && IsNamed(reason, Finish(reason))
  {
    hide Lower, IsNamed;
    LowerIs(reason, "end_turn");
    LowerIs(reason, "stop_sequence");
    LowerIs(reason, "tool_use");
    LowerIs(reason, "max_tokens");
    LowerIs(reason, "model_context_window_exceeded");
    LowerIsSmall(reason);
    LowerIs(reason, Lower(reason));
    var names := ["end_turn", "stop_sequence", "tool_use", "max_tokens", "model_context_window_exceeded"];
    assert names[0] in names && names[1] in names && names[2] in names && names[3] in names && names[4] in names;
  }

  /** Which event says that the reply has begun, has ended, why, or that it failed and whether from being busy. */
  lemma StepTells(s: State, event: Event)
    ensures var step := Fed(s, event).1;
            && (step.started <==> event.MessageStart? || event.BlockStart?)
            && (step.done <==> event.MessageStop?)
            && step.finish == (if event.MessageDelta? && event.reason != "" then Some(Finish(event.reason)) else None)
            && (step.error.Some? <==> event.ErrorEvent?)
            && (event.ErrorEvent? ==> (step.error == Some(Busy) <==> event.kind == "overloaded_error" || event.kind == "rate_limit_error"))
            && (event.ErrorEvent? || event.MessageStop? || event.OtherEvent? ==> Fed(s, event).0 == s)
  {
    hide Finish, MapUsage;
  }

  /** Text comes from text blocks as they start and from their pieces, and from nothing else. */
  lemma TextTells(s: State, event: Event)
    ensures Fed(s, event).1.text ==
            if event.BlockStart? && event.block.kind == TextKind then event.block.text.GetOr("")
            else if event.BlockDelta? && event.delta.TextDelta? then event.delta.text
            else ""
  {
    hide Finish, MapUsage;
  }

  /** A block that starts without its number takes the next one; a piece without its number reaches none but block -1. */
  lemma Unnumbered(s: State, block: Block, delta: Delta)
    ensures Fed(s, BlockStart(None, block)) == Fed(s, BlockStart(Some(|s.blocks|), block))
    ensures Fed(s, BlockDelta(None, delta)) == Fed(s, BlockDelta(Some(-1), delta)) && Fed(s, BlockStop(None)) == Fed(s, BlockStop(Some(-1)))
    ensures -1 !in s.blocks ==> Fed(s, BlockDelta(None, delta)).0 == s && Fed(s, BlockStop(None)) == (s, NOTHING)
  {
  }

  /** All that was read is counted once as input, what came from the cache also by itself; the total is of both sides or not there. */
  lemma UsageMeans(u: Usage)
    ensures var mapped := MapUsage(u);
            && (mapped.None? <==> u.input.None? && u.written.None? && u.read.None? && u.output.None?)
            && (mapped.Some? ==>
                && mapped.value.output == u.output && mapped.value.cached == u.read
                && (mapped.value.input.Some? <==> u.input.Some? || u.written.Some? || u.read.Some?)
                && (mapped.value.input.Some? ==> mapped.value.input.value == u.input.GetOr(0) + u.written.GetOr(0) + u.read.GetOr(0))
                && (mapped.value.total.Some? <==> mapped.value.input.Some? && mapped.value.output.Some?)
                && (mapped.value.total.Some? ==> mapped.value.total.value == mapped.value.input.value + mapped.value.output.value))
  {
  }
}
