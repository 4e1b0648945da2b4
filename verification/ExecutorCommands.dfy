/** Which commands the executor gives, told by its effects alone: a step that may be on is never
    left without a stop. */
module ExecutorCommands {
  import opened Domain
  import opened ExecutorSpec
  import opened ExecutorInvariant
  import opened ExecutorRuns
  import Dedup

  // ---------------------------------------------------------------------
  // What a lock hold adds to the effects

  /** The effects of `s`, and then these. */
  predicate Adds(s: Exec, r: Exec, es: seq<Effect>) { r.effects == s.effects + es }

  lemma SendStopAdds(s: Exec, env: Env)
    ensures var r := SendStop(s, env);
      && Adds(s, r, [StopController(s.clock)]) && r.clock == s.clock + env.stopLatency
      && r.j == s.j.(pending := r.j.pending, uncertainCount := r.j.uncertainCount)
  {}

  /** The report of a run that ends, if there is one. */
  function Report(j: Journal, outcome: RunOutcome, reason: Option<Reason>): seq<Effect> {
    if j.plan.Some? then [RunFinished(j.plan.value, outcome, reason, j.results)] else []
  }

  /** Nothing is left of the run but its place among the occurrences that are finished. */
  predicate IsOver(s: Exec, r: Exec) {
    && r.j == EMPTY_JOURNAL.(lastObservation := s.j.lastObservation, completed := r.j.completed,
                             retryCount := r.j.retryCount, uncertainCount := r.j.uncertainCount)
    && r.timer.None? && r.context == NoContext
    && (s.j.plan.Some? ==> r.j.completed == Dedup.Record(s.j.completed, s.j.plan.value.occurrence, r.clock))
  }

  lemma FinishAdds(s: Exec, outcome: RunOutcome, reason: Option<Reason>)
    ensures Adds(s, FinishRun(s, outcome, reason), Report(s.j, outcome, reason))
    ensures IsOver(s, FinishRun(s, outcome, reason))
  {
    hide Dedup.Record;
  }

  /** What becomes of the results when a run is cut off: what has ended stays, a step that runs
      is an external stop, and the steps still to come are skipped. */
  predicate CutOff(before: seq<StepResult>, after: seq<StepResult>) {
    && |after| == |before|
    && forall k :: 0 <= k < |before| ==> CutResult(before[k], after[k])
  }

  predicate CutResult(before: StepResult, after: StepResult) {
    match before.status
    case Pending => after == before.(status := Skipped, reason := after.reason) && after.reason.Some?
    case Running =>
      && after == before.(status := ExternalStop, reason := after.reason, actualEnd := after.actualEnd)
      && after.reason.Some? && after.actualEnd.Some?
    case _ => after == before
  }

  /** The valve of the current step may be on: it runs, or its start is not classified yet. */
  predicate MayBeOn(j: Journal) {
    HasStep(j) && (CurrentStatus(j) == Running || (j.state == Reconciling && CurrentStatus(j) == Pending))
  }

  // ---------------------------------------------------------------------
  // The user

  /** The first thing that was journaled is that the run is to be stopped: a crash from then on
      finds it so. */
  predicate StopIntended(s: Exec, r: Exec) {
    && |s.written| < |r.written| && s.written <= r.written
    && var w := r.written[|s.written|];
       && w == s.j.(stopRequested := true, state := w.state)
       && (IsActive(s.j) && s.j.plan.Some? ==> w.state == Stopping)
  }

  lemma StopAdds(s: Exec, env: Env, reason: string)
    requires s.j.plan.Some? ==> HasStep(s.j)
    ensures var r := StopRun(s, env, reason);
      if !IsActive(s.j) || s.j.plan.None? then
        && Adds(s, r, [StopController(s.clock)])
        && r.j == s.j.(stopRequested := false, pending := r.j.pending, uncertainCount := r.j.uncertainCount)
      else
        && |r.effects| == |s.effects| + 2
        && var e := r.effects[|s.effects| + 1];
           && Adds(s, r, [StopController(s.clock), e]) && e.RunFinished? && Some(e.plan) == s.j.plan
           && e.outcome == AbortedUser && e.reason == Some(UserText(reason)) && CutOff(s.j.results, e.results)
           && IsOver(s, r)
  {
    var s0 := RequestStop(s);
    SendStopAdds(s0, env);
    var s1 := SendStop(s0, env);
    hide SendStop;
    if IsActive(s.j) && s.j.plan.Some? {
      var s2 := SkipRemaining(EndForStop(s1, reason), UserStop);
      FinishAdds(s2, AbortedUser, Some(UserText(reason)));
      hide FinishRun;
      assert CutOff(s.j.results, s2.j.results);
    }
  }

  lemma StopIsIntended(s: Exec, env: Env, reason: string)
    requires s.j.plan.Some? ==> HasStep(s.j)
    ensures StopIntended(s, StopRun(s, env, reason))
  {
    var s0 := RequestStop(s);
    var s1 := SendStop(s0, env);
    assert s0.written == s.written + [s0.j] && s0.written <= s1.written;
    assert s1.written[|s.written|] == s0.j && s0.j == s.j.(stopRequested := true, state := s0.j.state);
    hide SendStop;
    if IsActive(s.j) && s.j.plan.Some? {
      assert s0.j.state == Stopping;
      var s2 := SkipRemaining(EndForStop(s1, reason), UserStop);
      FinishExtends(s2, AbortedUser, Some(UserText(reason)));
      assert s2.written == s1.written;
      hide FinishRun, SkipRemaining, EndForStop, RequestStop;
    }
  }

  lemma LeaveAdds(s: Exec, env: Env)
    requires HasStep(s.j)
    ensures var r := LeaveStep(s, env);
      && Adds(s, r, if MayBeOn(s.j) then [StopController(s.clock)] else [])
      && r.j == s.j.(pending := r.j.pending, uncertainCount := r.j.uncertainCount)
  {
    SendStopAdds(CancelTimer(s), env);
    hide SendStop;
  }

  lemma PauseAdds(s: Exec, env: Env, reason: string)
    requires HasStep(s.j) && IsActive(s.j)
    ensures var r := PauseRun(s, env, reason);
      && Adds(s, r, if MayBeOn(s.j) then [StopController(s.clock)] else [])
      && r.j.state == PausedExternal && HasStep(r.j) && r.j.index == s.j.index
      && CurrentStatus(r.j) == if CurrentStatus(s.j) == Running then ExternalStop else CurrentStatus(s.j)
  {
    LeaveAdds(s, env);
    hide LeaveStep;
  }

  lemma SkipAdds(s: Exec, env: Env)
    requires HasStep(s.j) && IsActive(s.j)
    ensures var r := SkipCurrent(s, env);
      && Adds(s, r, if MayBeOn(s.j) then [StopController(s.clock)] else [])
      && r.j.state == InterZoneGap && HasStep(r.j) && r.j.index == s.j.index && CurrentStatus(r.j) == Skipped
      && r.timer.Some? && r.timer.value.handler == OnGap && r.timer.value.when == r.clock + env.config.interZoneGap
  {
    LeaveAdds(s, env);
    hide LeaveStep;
  }
}
