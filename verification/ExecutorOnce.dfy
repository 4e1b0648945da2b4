/** A run that is neither paused nor skipped by its user, and does not crash, never makes
    the controller accept the same step twice, however its commands get lost. */
module ExecutorOnce {
  import opened Domain
  import opened ExecutorSpec
  import opened ExecutorInvariant
  import opened ExecutorFrames
  import opened ExecutorRuns

  /** An uncertain start is waiting to be classified. */
  predicate Classifying(s: Exec) {
    s.j.state == Reconciling && s.context == StartContext && Armed(s, ClassifyUncertain)
  }

  /** At most one start, of a pending step, and none while an uncertain one is open. */
  predicate MovesOn(s: Exec, r: Exec, env: Env) {
    KeepsRun(s, r) ||
    (!Classifying(s) && exists i: nat ::
       i < |s.j.results| && s.j.results[i].status == Pending && SentOne(s, r, i, s.clock, env.start))
  }

  lemma KeepsMovesOn(s: Exec, s': Exec, r: Exec, env: Env)
    requires s.effects == s'.effects && s.j.plan == s'.j.plan && s.j.results == s'.j.results
    requires Keeps(s, r)
    ensures MovesOn(s', r, env)
  {
    hide Starts;
  }

  lemma SendsMovesOn(s: Exec, s': Exec, r: Exec, env: Env)
    requires s.effects == s'.effects && s.j.plan == s'.j.plan && s.j.results == s'.j.results && s.clock == s'.clock
    requires SendsFirstPending(s, r, env, s.clock) && !Classifying(s')
    ensures MovesOn(s', r, env)
  {
    hide Starts;
    if !KeepsRun(s, r) {
      var i: nat :| i < |s.j.results| && i == NextPending(s.j.results) && SentOne(s, r, i, s.clock, env.start);
      assert SentOne(s', r, i, s.clock, env.start);
    }
  }

  lemma ZoneMovesOn(s: Exec, env: Env, zone: ZoneId, isOn: bool, o: Observation)
    requires s.j.state != Idle ==> HasStep(s.j)
    requires Readable(s.j)
    ensures MovesOn(s, HandleZoneState(s, env, zone, isOn, o), env)
  {
    var s1 := NoteObservation(s, o);
    hide Starts, ZoneEventDuringRun, ZoneEventDuringGap, ResumeOrExpire, SensorPauseCleared, MovesOn, SendsFirstPending;
    KeepsMovesOn(s1, s, s1, env) by { assert Keeps(s1, s1); }
    if s1.j.plan.Some? {
      ZoneDuringRunKeeps(s1, env, zone, isOn, o);
      ZoneDuringGapKeeps(s1, env, zone, isOn, o);
      KeepsMovesOn(s1, s, ZoneEventDuringRun(s1, env, zone, isOn, o), env);
      KeepsMovesOn(s1, s, ZoneEventDuringGap(s1, env, zone, isOn, o), env);
      ResumeOrExpireSends(s1, env);
      if IsPaused(s.j) { SendsMovesOn(s1, s, ResumeOrExpire(s1, env), env); }
    }
  }

  lemma SensorMovesOn(s: Exec, env: Env, o: Observation)
    requires Readable(s.j)
    ensures MovesOn(s, HandleSensorState(s, env, o), env)
    ensures MovesOn(s, HandleWeatherState(s, env, o), env)
  {
    var s1 := NoteObservation(s, o);
    hide Starts, FreezeCut, ResumeOrExpire, SensorPauseCleared, MovesOn, SendsFirstPending, FreezeActive;
    KeepsMovesOn(s1, s, s1, env) by { assert Keeps(s1, s1); }
    if s1.j.plan.Some? {
      FreezeCutKeeps(s1, env);
      KeepsMovesOn(s1, s, FreezeCut(s1, env), env);
      ResumeOrExpireSends(s1, env);
      if IsPaused(s.j) { SendsMovesOn(s1, s, ResumeOrExpire(s1, env), env); }
    }
  }

  lemma ResumeMovesOn(s: Exec, env: Env)
    requires Readable(s.j)
    ensures MovesOn(s, ResumeRun(s, env), env)
  {
    var s1 := s.(j := s.j.(pausedReason := None));
    hide Starts, ResumeOrExpire, MovesOn, SendsFirstPending;
    KeepsMovesOn(s, s, s, env) by { assert Keeps(s, s); }
    if IsPaused(s.j) && s.j.plan.Some? {
      ResumeOrExpireSends(s1, env);
      SendsMovesOn(s1, s, ResumeOrExpire(s1, env), env);
    }
  }

  lemma FireMovesOn(s: Exec, env: Env, t: Timer)
    requires Rest(CrashFree, s) && t in s.issued
    ensures MovesOn(s, Fire(s, env, t), env)
  {
    var f := s.(issued := s.issued - {t}, timer := None);
    assert t.generation == s.generation ==> s.timer == Some(t);
    KeepsMovesOn(f, s, s.(issued := s.issued - {t}), env) by { hide Starts; }
    if t.generation == s.generation && s.j.state != Idle {
      assert HasStep(f.j) && Expects(f, t.handler);
      assert t.handler == RetryStep ==> CurrentStatus(f.j) == Pending && !Classifying(s);
      assert t.handler == OnGap ==> !Classifying(s);
      hide Rest, MovesOn, Fire;
      DispatchMovesOn(s, f, env, t.handler);
      assert Fire(s, env, t) == Dispatch(f, env, t.handler) by { FireDispatches(s, env, t); }
    }
  }

  lemma FireDispatches(s: Exec, env: Env, t: Timer)
    requires Readable(s.j) && t.generation == s.generation
    ensures Fire(s, env, t) == Dispatch(s.(issued := s.issued - {t}, timer := None), env, t.handler)
  {
    hide Dispatch;
  }

  lemma DispatchMovesOn(s': Exec, s: Exec, env: Env, handler: Handler)
    requires s.effects == s'.effects && s.j == s'.j && s.clock == s'.clock
    requires HasStep(s.j) && Expects(s, handler)
    requires handler == RetryStep ==> CurrentStatus(s.j) == Pending && !Classifying(s')
    requires handler == OnGap ==> !Classifying(s')
    ensures MovesOn(s', Dispatch(s, env, handler), env)
  {
    hide Starts, HandleExpectedEnd, HandleConfirmOverrun, HandleConfirmEarlyEnd, HandleClassifyUncertain,
      HandleRetryStep, SendStop, Advance, MovesOn, SendsFirstPending, Classifying;
    match handler {
      case OnExpectedEnd => ExpectedEndKeeps(s, env); KeepsMovesOn(s, s', HandleExpectedEnd(s, env), env);
      case OnGap => AdvanceSends(s, env); SendsMovesOn(s, s', Advance(s, env), env);
      case ConfirmOverrun => ConfirmOverrunKeeps(s, env); KeepsMovesOn(s, s', HandleConfirmOverrun(s, env), env);
      case ConfirmEarlyEnd => ConfirmEarlyEndKeeps(s, env); KeepsMovesOn(s, s', HandleConfirmEarlyEnd(s, env), env);
      case ClassifyUncertain =>
        ClassifyUncertainKeeps(s, env);
        KeepsMovesOn(s, s', HandleClassifyUncertain(s, env), env);
      case RetryStep => RetryMovesOn(s', s, env);
      case RetryUncertainStop =>
        SendStopKeeps(s, env);
        KeepsMovesOn(s, s', SendStop(s, env), env);
        KeepsMovesOn(s, s', s, env) by { assert Keeps(s, s); }
    }
  }

  lemma RetryMovesOn(s': Exec, s: Exec, env: Env)
    requires s.effects == s'.effects && s.j == s'.j && s.clock == s'.clock
    requires HasStep(s.j) && CurrentStatus(s.j) == Pending && !Classifying(s')
    ensures MovesOn(s', HandleRetryStep(s, env), env)
  {
    hide Starts, HandleRetryStep;
    RetryStepSends(s, env);
    var r := HandleRetryStep(s, env);
    if Keeps(s, r) { KeepsMovesOn(s, s', r, env); }
    else { assert SentOne(s', r, s.j.index, s.clock, env.start); }
  }

  // ---------------------------------------------------------------------
  // The controller

  /** Instants at which the controller accepted the steps of the current run. */
  type Accepted = map<nat, Instant>

  /** What the controller did with the start command of a lock hold, if there was one. */
  datatype Input = Input(event: Event, env: Env, took: Option<Instant>)

  datatype World = World(s: Exec, accepted: Accepted)

  function NewStart(s: Exec, r: Exec): Option<Effect> {
    var es := Starts(r.effects);
    if |es| > |Starts(s.effects)| then Some(es[|es| - 1]) else None
  }

  /** What was accepted before this lock hold in the run that it belongs to. */
  function Before(w: World): Accepted { if w.s.j.state == Idle then map[] else w.accepted }

  function Now(w: World, input: Input): Accepted {
    var start := NewStart(w.s, Step(w.s, input.event, input.env));
    if start.Some? && start.value.StartZone? && input.took.Some?
    then map[start.value.index := input.took.value] else map[]
  }

  function Next(w: World, input: Input): World {
    World(Step(w.s, input.event, input.env), Before(w) + Now(w, input))
  }

  /** A success was accepted, a rejection was not, and nothing is accepted before it is sent. */
  predicate Plausible(w: World, input: Input) {
    var start := NewStart(w.s, Step(w.s, input.event, input.env));
    start.Some? && start.value.StartZone? ==>
      && (start.value.result == StartOk ==> input.took.Some?)
      && (start.value.result == StartRejected ==> input.took.None?)
      && (input.took.Some? ==> input.took.value >= start.value.at)
  }

  /** An uncertain start was or will be accepted all the same. */
  predicate OpenAccepted(w: World) {
    Classifying(w.s) && HasStep(w.s.j) && w.s.j.index in w.accepted
  }

  /** At `t` the valve that an open start command opened is on. */
  predicate IsOn(w: World, t: Instant) {
    OpenAccepted(w) &&
    w.accepted[w.s.j.index] <= t < w.accepted[w.s.j.index] + 60 * CurrentStep(w.s.j).duration
  }

  function ReadAt(env: Env): Instant { env.now + env.readLatency }

  /** A read that succeeds shows the zone on while it is. */
  predicate Truthful(w: World, input: Input) {
    input.event.FireEvent? && input.env.read.Some? && IsOn(w, ReadAt(input.env)) ==>
      CurrentStep(w.s.j).zone in input.env.read.value.active
  }

  /** Only this run drives the controller: while a start is open, events show no other zone
      that is not explained by an earlier step. */
  predicate Alone(w: World, input: Input) {
    input.event.ZoneEvent? && Classifying(w.s) && HasStep(w.s.j) ==>
      ExternalZones(w.s.j, input.event.seen, w.s.j.index) <= {CurrentStep(w.s.j).zone}
  }

  /** What is accepted is accepted before it is classified, not later. */
  predicate Prompt(w: World, input: Input) {
    input.event.FireEvent? && OpenAccepted(w) ==> w.accepted[w.s.j.index] <= ReadAt(input.env)
  }

  /** The read that classifies an accepted start succeeds. */
  predicate Answered(w: World, input: Input) {
    input.event.FireEvent? && OpenAccepted(w) ==> input.env.read.Some?
  }

  /** An open start is classified before its commanded duration has passed: the
      observation timeout, with the latencies, is shorter than the duration. */
  predicate Timely(w: World, input: Input) {
    Classifying(w.s) && HasStep(w.s.j) && w.s.j.pending.Some? ==>
      ReadAt(input.env) < w.s.j.pending.value.intendedAt + 60 * CurrentStep(w.s.j).duration
  }

  /** A callback that runs at most `lag` late is timely when the start-observation timeout,
      with that lag and the latencies of the start and the read, is shorter than the step. */
  lemma ShortTimeoutIsTimely(s: Exec, env: Env, accepted: Accepted, fire: Env, took: Option<Instant>, lag: nat)
    requires HasStep(s.j) && env.start == StartUncertain
    requires var r := SendStart(s, env); r.timer.Some? && fire.now <= r.timer.value.when + lag
    requires env.startLatency + env.config.startObservationTimeout + lag + fire.readLatency
           < 60 * CurrentStep(s.j).duration
    ensures var r := SendStart(s, env);
      Classifying(r) && Timely(World(r, accepted), Input(FireEvent(r.timer.value), fire, took))
  {}

  predicate Fair(w: World, input: Input) {
    && !(input.event.PauseEvent? || input.event.SkipEvent? || input.event.RestartEvent?)
    && Plausible(w, input) && Truthful(w, input) && Alone(w, input)
    && Prompt(w, input) && Answered(w, input) && Timely(w, input)
  }

  predicate FairTrace(w: World, inputs: seq<Input>)
    decreases |inputs|
  {
    inputs == [] || (Fair(w, inputs[0]) && FairTrace(Next(w, inputs[0]), inputs[1..]))
  }

  /** No step of a run is ever accepted after having been accepted. */
  predicate AcceptedAtMostOnce(w: World, inputs: seq<Input>)
    decreases |inputs|
  {
    inputs == [] ||
    (Now(w, inputs[0]).Keys !! Before(w).Keys && AcceptedAtMostOnce(Next(w, inputs[0]), inputs[1..]))
  }

  /** An accepted step is no longer pending, unless its start is still open. */
  predicate OnceSoFar(s: Exec, accepted: Accepted) {
    s.j.state != Idle ==>
      HasStep(s.j) && forall i :: i in accepted && i < |s.j.results| && s.j.results[i].status == Pending ==>
        && i == s.j.index && Classifying(s) && s.j.pending.Some? && s.j.pending.value.intendedAt <= accepted[i]
  }

  /** While an accepted start is open, fair events leave it open, classify it or end the run. */
  predicate StaysOpen(s: Exec, r: Exec) {
    || r.j.state == Idle
    || (HasStep(r.j) && r.j.index == s.j.index && CurrentStatus(r.j) != Pending)
    || (HasStep(r.j) && r.j.index == s.j.index && Classifying(r) && r.j.pending == s.j.pending)
  }

  lemma OpenFire(s: Exec, env: Env, t: Timer)
    requires Rest(CrashFree, s) && Classifying(s) && t in s.issued
    requires env.read.Some? && CurrentStep(s.j).zone in env.read.value.active
    ensures StaysOpen(s, Fire(s, env, t))
  {
    if t.generation == s.generation {
      assert s.timer == Some(t);
      var f := s.(issued := s.issued - {t}, timer := None);
      FireDispatches(s, env, t);
      var s1 := Observe(f, env);
      assert HasStep(s1.j) && CurrentStep(s1.j) == CurrentStep(s.j) && s1.j.index == s.j.index && s1.j.plan == s.j.plan;
      hide Rest, Fire, AcceptAt;
      assert Dispatch(f, env, t.handler) == AcceptAt(s1, env, CommandTime(s1), s1.clock);
      AcceptKeeps(s1, env, CommandTime(s1), s1.clock);
      hide Starts;
    } else {
      hide Log, CleanJournal;
    }
  }

  lemma OpenZone(s: Exec, env: Env, zone: ZoneId, isOn: bool, o: Observation)
    requires Rest(CrashFree, s) && Classifying(s) && ExternalZones(s.j, o, s.j.index) <= {CurrentStep(s.j).zone}
    ensures StaysOpen(s, HandleZoneState(s, env, zone, isOn, o))
  {
    var s1 := NoteObservation(s, o);
    assert CurrentStep(s1.j) == CurrentStep(s.j);
    assert ExternalZones(s1.j, o, s1.j.index) == ExternalZones(s.j, o, s.j.index);
    hide Log, CleanJournal, Recorded, ExternalConflict, ExternalZones;
  }

  lemma OpenIsPending(s: Exec)
    requires Rest(CrashFree, s) && Classifying(s)
    ensures HasStep(s.j) && CurrentStatus(s.j) == Pending && Readable(s.j)
  {
    hide Log, CleanJournal;
  }

  lemma OpenStep(w: World, input: Input)
    requires Rest(CrashFree, w.s) && Fair(w, input)
    requires Classifying(w.s) && w.s.j.index in w.accepted
    requires w.s.j.pending.Some? && w.s.j.pending.value.intendedAt <= w.accepted[w.s.j.index]
    ensures StaysOpen(w.s, Step(w.s, input.event, input.env))
  {
    var s := w.s.(clock := input.env.now);
    ClockRest(CrashFree, w.s, input.env.now);
    OpenIsPending(w.s);
    hide Rest;
    assert HasStep(s.j) && CurrentStatus(s.j) == Pending && s.j.state == Reconciling && IsActive(s.j);
    assert input.event.FireEvent? ==> IsOn(w, ReadAt(input.env));
    hide Rest, Plausible, Fire, HandleZoneState, StopRun;
    match input.event {
      case FireEvent(t) => if t in s.issued { OpenFire(s, input.env, t); }
      case ZoneEvent(zone, isOn, seen) => OpenZone(s, input.env, zone, isOn, seen);
      case StopEvent(reason) => StopRunKeeps(s, input.env, reason); hide Starts;
      case _ =>
    }
  }

  lemma StepMovesOn(s: Exec, event: Event, env: Env)
    requires Rest(CrashFree, s) && s.clock == env.now
    requires !(event.StartRunEvent? || event.PauseEvent? || event.SkipEvent? || event.RestartEvent?)
    ensures MovesOn(s, Step(s, event, env), env)
  {
    RestReadable(CrashFree, s);
    ActiveHasStep(CrashFree, s);
    assert s.(clock := env.now) == s;
    hide Rest, MovesOn, Fire, HandleZoneState, HandleSensorState, HandleWeatherState, StopRun, ResumeRun, Starts;
    match event {
      case StopEvent(reason) => StopRunKeeps(s, env, reason); KeepsMovesOn(s, s, StopRun(s, env, reason), env);
      case ResumeEvent => ResumeMovesOn(s, env);
      case ZoneEvent(zone, isOn, seen) => ZoneMovesOn(s, env, zone, isOn, seen);
      case SensorEvent(seen) => SensorMovesOn(s, env, seen);
      case WeatherEvent(seen) => SensorMovesOn(s, env, seen);
      case NoteEvent(seen) =>
        KeepsMovesOn(NoteObservation(s, seen), s, NoteObservation(s, seen), env) by {
          assert Keeps(NoteObservation(s, seen), NoteObservation(s, seen));
        }
      case FireEvent(t) =>
        if t in s.issued { FireMovesOn(s, env, t); }
        else { KeepsMovesOn(s, s, s, env) by { assert Keeps(s, s); } }
    }
  }

  lemma StartRunSends(s: Exec, env: Env, plan: RunPlan)
    requires Rest(CrashFree, s)
    ensures var r := StartRun(s, env, plan).0;
      || r == s
      || (s.j.state == Idle && (KeepsRun(Claim(s, plan), r) ||
           exists i: nat :: i < |plan.steps| && SentOne(Claim(s, plan), r, i, s.clock, env.start)))
  {
    var s1 := Claim(s, plan);
    hide Starts, Advance, FinishRun, Rest, NextPending;
    FinishKeeps(s1, RunSkipped, Some(NoExecutableSteps));
    AdvanceSends(s1, env);
    RestReadable(CrashFree, s);
  }

  /** The step that claims the controller: whatever was accepted before is of another run. */
  lemma ClaimedOnce(w: World, input: Input, r: Exec, plan: RunPlan)
    requires r == Step(w.s, input.event, input.env) && w.s.j.state == Idle
    requires r.j.state != Idle ==> HasStep(r.j)
    requires var s1 := Claim(w.s.(clock := input.env.now), plan);
      KeepsRun(s1, r) || exists i: nat :: i < |plan.steps| && SentOne(s1, r, i, input.env.now, input.env.start)
    requires Plausible(w, input)
    ensures Now(w, input).Keys !! Before(w).Keys
    ensures OnceSoFar(r, Before(w) + Now(w, input))
  {
    var s1 := Claim(w.s.(clock := input.env.now), plan);
    hide Step, Starts;
    assert Starts(s1.effects) == Starts(w.s.effects);
    if KeepsRun(s1, r) {
      assert Now(w, input) == map[];
    } else {
      var i: nat :| i < |plan.steps| && SentOne(s1, r, i, input.env.now, input.env.start);
      assert NewStart(w.s, r) == Some(StartZone(i, input.env.now, input.env.start));
    }
  }

  /** The step of a run that is already there. */
  lemma MovedOnce(w: World, input: Input, r: Exec)
    requires OnceSoFar(w.s, w.accepted) && r == Step(w.s, input.event, input.env) && w.s.j.state != Idle
    requires MovesOn(w.s.(clock := input.env.now), r, input.env) && Plausible(w, input)
    requires r.j.state != Idle ==> HasStep(r.j)
    requires Classifying(w.s) && w.s.j.index in w.accepted && CurrentStatus(w.s.j) == Pending ==> StaysOpen(w.s, r)
    ensures Now(w, input).Keys !! Before(w).Keys
    ensures OnceSoFar(r, Before(w) + Now(w, input))
  {
    var s := w.s.(clock := input.env.now);
    hide Step, Starts;
    if KeepsRun(s, r) {
      assert Now(w, input) == map[];
      assert Before(w) + Now(w, input) == w.accepted;
    } else {
      var i: nat :| i < |s.j.results| && s.j.results[i].status == Pending && SentOne(s, r, i, s.clock, input.env.start);
      assert NewStart(w.s, r) == Some(StartZone(i, s.clock, input.env.start));
      assert i !in w.accepted;
    }
  }

  lemma StepOnce(w: World, input: Input)
    requires Rest(CrashFree, w.s) && OnceSoFar(w.s, w.accepted) && Fair(w, input)
    ensures var next := Next(w, input);
      && Rest(CrashFree, next.s) && OnceSoFar(next.s, next.accepted)
      && Now(w, input).Keys !! Before(w).Keys
  {
    var s := w.s.(clock := input.env.now);
    var r := Step(w.s, input.event, input.env);
    StepRest(CrashFree, w.s, input.event, input.env);
    ClockRest(CrashFree, w.s, input.env.now);
    RestReadable(CrashFree, s);
    ActiveHasStep(CrashFree, r);
    assert r == Step(s, input.event, input.env);
    if input.event.StartRunEvent? {
      assert r == StartRun(s, input.env, input.event.plan).0;
      StartRunSends(s, input.env, input.event.plan);
    } else {
      StepMovesOn(s, input.event, input.env);
    }
    if w.s.j.state != Idle {
      if Classifying(w.s) && w.s.j.index in w.accepted && CurrentStatus(w.s.j) == Pending { OpenStep(w, input); }
      assert MovesOn(s, r, input.env) by { hide Starts, Rest, Step, StartRun; }
      hide Step, Rest, Plausible, Now, Starts, MovesOn, StartRun;
      MovedOnce(w, input, r);
    } else if r != s && input.event.StartRunEvent? {
      hide Step, Rest, Plausible, Now, Starts, OnceSoFar, StartRun;
      ClaimedOnce(w, input, r, input.event.plan);
    } else {
      assert r.j.state == Idle by { hide Starts, Rest, Step, StartRun; }
      hide Step, Rest, Starts, StartRun, MovesOn;
    }
  }

  /** Accepted at most once. */
  lemma {:induction false} NeverAcceptedTwice(w: World, inputs: seq<Input>)
    requires Rest(CrashFree, w.s) && OnceSoFar(w.s, w.accepted) && FairTrace(w, inputs)
    ensures AcceptedAtMostOnce(w, inputs)
    decreases |inputs|
  {
    hide Rest, OnceSoFar, Now, Fair, Next;
    if inputs != [] {
      StepOnce(w, inputs[0]);
      NeverAcceptedTwice(Next(w, inputs[0]), inputs[1..]);
    }
  }

  lemma {:induction false} AcceptedAtMostOnceFromStart(inputs: seq<Input>)
    requires FairTrace(World(INITIAL, map[]), inputs)
    ensures AcceptedAtMostOnce(World(INITIAL, map[]), inputs)
  {
    InitialRest(CrashFree);
    NeverAcceptedTwice(World(INITIAL, map[]), inputs);
  }

  // ---------------------------------------------------------------------
  // Both hypotheses about the classifying read are needed

  /** Nothing is known to be on. */
  predicate SeesNothing(s: Exec, env: Env) {
    var seen := if env.read.Some? then env.read else s.j.lastObservation;
    seen.Some? ==> seen.value == ALL_QUIET
  }

  lemma LostStartIsRetried(s: Exec, env: Env, t: Timer)
    requires Rest(CrashFree, s) && Classifying(s) && s.timer == Some(t) && SeesNothing(s, env) && AttemptsLeft(s.j)
    requires s.clock == env.now && ReadAt(env) <= LatestPermissibleStart(s.j.plan.value, env.config)
    ensures var r := Fire(s, env, t);
      && Rest(CrashFree, r) && r.j.state == Reconciling && Armed(r, RetryStep) && HasStep(r.j)
      && r.j.plan == s.j.plan && r.j.index == s.j.index && r.j.results == s.j.results
      && Starts(r.effects) == Starts(s.effects) && SeesNothing(r, env.(read := None))
  {
    var f := s.(issued := s.issued - {t}, timer := None);
    assert t in s.issued && t.generation == s.generation && Readable(s.j) && HasStep(f.j);
    hide Rest, Fire, LatestPermissibleStart, Starts, Dispatch, HandleClassifyUncertain;
    FireRest(CrashFree, s, env, t);
    FireDispatches(s, env, t);
    assert Dispatch(f, env, ClassifyUncertain) == HandleClassifyUncertain(f, env) by { Dispatches(f, env); }
    ClassifiedAsLost(f, env);
  }

  lemma Dispatches(s: Exec, env: Env)
    requires HasStep(s.j)
    ensures Dispatch(s, env, ClassifyUncertain) == HandleClassifyUncertain(s, env)
  {
    hide HandleClassifyUncertain;
  }

  lemma ClassifiedAsLost(s: Exec, env: Env)
    requires HasStep(s.j) && s.j.state == Reconciling && SeesNothing(s, env) && AttemptsLeft(s.j)
    requires s.clock == env.now && ReadAt(env) <= LatestPermissibleStart(s.j.plan.value, env.config)
    ensures var r := HandleClassifyUncertain(s, env);
      && r.j.state == Reconciling && Armed(r, RetryStep) && HasStep(r.j)
      && r.j.plan == s.j.plan && r.j.index == s.j.index && r.j.results == s.j.results
      && r.effects == s.effects && SeesNothing(r, env.(read := None))
  {
    var s1 := Observe(s, env);
    assert s1.j.lastObservation.Some? ==> ExternalZones(s1.j, s1.j.lastObservation.value, s1.j.index) == {};
    assert HandleClassifyUncertain(s, env) == RetryOrFail(s1, env) by {
      hide RetryOrFail, ExternalZones, AcceptAt, ExternalConflict;
    }
    assert SeesNothing(s1, env.(read := None)) && s1.clock == ReadAt(env);
    hide HandleClassifyUncertain, Observe, LatestPermissibleStart;
    RetriedLater(s1, env);
  }

  lemma RetriedLater(s: Exec, env: Env)
    requires HasStep(s.j) && s.j.state == Reconciling && AttemptsLeft(s.j)
    requires s.clock <= LatestPermissibleStart(s.j.plan.value, env.config)
    ensures var r := RetryOrFail(s, env);
      && r.j.state == Reconciling && Armed(r, RetryStep) && HasStep(r.j)
      && r.j.plan == s.j.plan && r.j.index == s.j.index && r.j.results == s.j.results
      && r.effects == s.effects && r.j.lastObservation == s.j.lastObservation
  {
    hide LatestPermissibleStart, FailRun;
  }

  lemma RetriedStartIsSent(s: Exec, env: Env, t: Timer)
    requires Rest(CrashFree, s) && s.j.state == Reconciling && s.timer == Some(t) && t.handler == RetryStep
    requires SeesNothing(s, env.(read := None)) && !FreezeBlocks(env, ALL_QUIET) && s.clock == env.now
    requires HasStep(s.j) && CurrentStep(s.j).zone in env.resolvable
    ensures Starts(Fire(s, env, t).effects) == Starts(s.effects) + [StartZone(s.j.index, s.clock, env.start)]
  {
    var f := s.(issued := s.issued - {t}, timer := None);
    FireDispatches(s, env, t);
    var s1 := f.(j := f.j.(state := Waiting));
    assert Fire(s, env, t) == StartStep(s1, env) by { hide Fire, StartStep, Log, CleanJournal; }
    StartStepSends(s1, env);
    assert Sends(s1, env) by {
      if s1.j.lastObservation.Some? { QuietIsUnblocked(s1.j, env); }
      hide FreezeBlocks;
    }
    hide StartStep, Fire, Starts, Rest, Sends;
  }

  /** Without one of them, and with every other hypothesis met, the step is accepted twice:
      the controller accepts the command only after the classifying read, or that read fails. */
  lemma {:induction false} LostStartAcceptsTwice(w: World, t: Timer, env: Env, later: Env, took: Instant)
    requires Rest(CrashFree, w.s) && OpenAccepted(w) && w.s.timer == Some(t)
    requires AttemptsLeft(w.s.j) && ReadAt(env) <= LatestPermissibleStart(w.s.j.plan.value, env.config)
    requires SeesNothing(w.s, env) && (env.read.Some? ==> ReadAt(env) < w.accepted[w.s.j.index])
    requires Timely(w, Input(FireEvent(t), env, None))
    requires CurrentStep(w.s.j).zone in later.resolvable && !FreezeBlocks(later, ALL_QUIET)
    requires later.start == StartOk && later.now <= took
    ensures var first := Input(FireEvent(t), env, None);
      var w1 := Next(w, first);
      && Plausible(w, first) && Truthful(w, first) && Alone(w, first)
      && (if env.read.Some? then Answered(w, first) && !Prompt(w, first) else !Answered(w, first))
      && w1.s.timer.Some?
      && var second := Input(FireEvent(w1.s.timer.value), later, Some(took));
         && Fair(w1, second) && !AcceptedAtMostOnce(w, [first, second])
  {
    var first := Input(FireEvent(t), env, None);
    var w1 := LostStartKept(w, env, t);
    var second := Input(FireEvent(w1.s.timer.value), later, Some(took));
    hide *;
    SentAgain(w1, later, took);
    AgainIsTwice(w, first, second, w.s.j.index);
  }

  lemma LostStartKept(w: World, env: Env, t: Timer) returns (w1: World)
    requires Rest(CrashFree, w.s) && OpenAccepted(w) && w.s.timer == Some(t) && SeesNothing(w.s, env)
    requires AttemptsLeft(w.s.j) && ReadAt(env) <= LatestPermissibleStart(w.s.j.plan.value, env.config)
    ensures w1 == Next(w, Input(FireEvent(t), env, None)) && Plausible(w, Input(FireEvent(t), env, None))
    ensures Rest(CrashFree, w1.s) && w1.s.j.state == Reconciling && Armed(w1.s, RetryStep) && HasStep(w1.s.j)
    ensures w1.s.j.index == w.s.j.index && w.s.j.index in w1.accepted && CurrentStep(w1.s.j) == CurrentStep(w.s.j)
    ensures SeesNothing(w1.s, env.(read := None))
  {
    var s := w.s.(clock := env.now);
    w1 := Next(w, Input(FireEvent(t), env, None));
    FireStep(w.s, env, t);
    assert HasStep(s.j) && CurrentStep(s.j) == CurrentStep(w.s.j);
    hide Rest, Fire, LatestPermissibleStart, Step, Starts;
    LostStartIsRetried(s, env, t);
  }

  lemma {:induction false} AgainIsTwice(w: World, first: Input, second: Input, i: nat)
    requires var w1 := Next(w, first); i in Now(w1, second).Keys && i in Before(w1).Keys
    ensures !AcceptedAtMostOnce(w, [first, second])
  {
    assert [first, second][1..] == [second];
    var w1 := Next(w, first);
    hide Next, Now, Before;
    assert !AcceptedAtMostOnce(w1, [second]);
  }

  lemma FireStep(s: Exec, env: Env, t: Timer)
    requires Rest(CrashFree, s) && s.timer == Some(t)
    ensures Rest(CrashFree, s.(clock := env.now)) && Readable(s.j)
    ensures Step(s, FireEvent(t), env) == Fire(s.(clock := env.now), env, t)
  {
    ClockRest(CrashFree, s, env.now);
    RestReadable(CrashFree, s);
    assert t in s.issued;
    hide Rest, Fire;
  }

  lemma SentAgain(w: World, env: Env, took: Instant)
    requires Rest(CrashFree, w.s) && w.s.j.state == Reconciling && Armed(w.s, RetryStep) && HasStep(w.s.j)
    requires SeesNothing(w.s, env.(read := None)) && !FreezeBlocks(env, ALL_QUIET)
    requires CurrentStep(w.s.j).zone in env.resolvable && env.start == StartOk && env.now <= took
    requires w.s.j.index in w.accepted
    ensures var second := Input(FireEvent(w.s.timer.value), env, Some(took));
      Fair(w, second) && w.s.j.index in Now(w, second).Keys && w.s.j.index in Before(w).Keys
  {
    var t := w.s.timer.value;
    var r := Step(w.s, FireEvent(t), env);
    assert !Classifying(w.s);
    assert NewStart(w.s, r) == Some(StartZone(w.s.j.index, env.now, env.start)) by {
      FireStep(w.s, env, t);
      hide Fire, Step, Starts, Rest, FreezeBlocks;
      RetriedStartIsSent(w.s.(clock := env.now), env, t);
    }
    hide Rest, Step, NewStart, Classifying, FreezeBlocks, SeesNothing;
  }
}
