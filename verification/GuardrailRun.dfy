/** Whole runs of the controller under the engine that drives it.

    The engine (crates/runtime-server/src/core/engine/capacity_flow, message_handlers.rs) starts turns,
    observes, and at each checkpoint decides, reports the decision to the ladder and dispatches it. A
    dispatched intervention may find nothing to do; only one that took effect is marked applied. */
module GuardrailRun {
  import opened Text
  import opened Capacity
  import opened Coherence

  datatype Event =
    | TurnStart(turn: nat)
    | Observe(input: Observation)
    | Checkpoint(turn: nat, snapshot: Option<Snapshot>, takesEffect: bool)
    | ReplayFailure(turn: nat)
    | Compaction(stage: CompactionStage)

  datatype CompactionStage = Started | Completed | Failed {
    function Signal(): CoherenceSignal {
      match this
      case Started => CompactionStarted
      case Completed => CompactionCompleted
      case Failed => CompactionFailed
    }
  }

  /** An intervention that took effect. */
  datatype Landing = Landing(turn: nat, action: GuardrailAction)

  /** `resets` lists the turn of every checkpoint that sent the ladder to `ResettingPlan`. */
  datatype Run = Run(controller: Controller, landings: seq<Landing>, signals: seq<CoherenceSignal>, resets: seq<nat>)

  const IDLE := Run(FRESH, [], [], [])

  function Emitted(d: Decision, snapshot: Option<Snapshot>, lands: bool): seq<CoherenceSignal> {
    (if snapshot.None? then [] else [CapacityDecision(snapshot.value.riskBand, d.action, d.cooldownBlocked)])
    + if lands then [CapacityIntervention(d.action)] else []
  }

  /** The signal drives the ladder into `ResettingPlan` from anywhere. */
  ghost predicate Resets(signal: CoherenceSignal) {
    forall s: CoherenceState :: NextCoherenceState(s, signal) == ResettingPlan
  }

  ghost function Step(config: Config, scoring: Scoring, r: Run, e: Event): Run {
    match e
    case TurnStart(turn) => r.(controller := TurnStarted(r.controller, turn))
    case Observe(input) => r.(controller := Observed(config, scoring, r.controller, input))
    case ReplayFailure(turn) => r.(controller := ReplayFailed(r.controller, turn))
    case Compaction(stage) => r.(signals := r.signals + [stage.Signal()])
    case Checkpoint(turn, snapshot, takesEffect) =>
      var d := Decide(config, r.controller.guard, turn, snapshot);
      var lands := takesEffect && d.action != NoIntervention;
      var emitted := Emitted(d, snapshot, lands);
      Run(
        if lands then InterventionApplied(r.controller, turn, d.action) else r.controller,
        if lands then r.landings + [Landing(turn, d.action)] else r.landings,
        r.signals + emitted,
        if exists s :: s in emitted && Resets(s) then r.resets + [turn] else r.resets)
  }

  ghost function Execute(config: Config, scoring: Scoring, events: seq<Event>): Run {
    if events == [] then IDLE
    else Step(config, scoring, Execute(config, scoring, events[..|events| - 1]), events[|events| - 1])
  }

  /** The turns at which interventions of one kind took effect, in order. */
  function Turns(landings: seq<Landing>, action: GuardrailAction): seq<nat> {
    if landings == [] then []
    else
      var rest := Turns(landings[..|landings| - 1], action);
      var last := landings[|landings| - 1];
      if last.action == action then rest + [last.turn] else rest
  }

  predicate SpacedBy(turns: seq<nat>, gap: nat) {
    forall i, j :: 0 <= i < j < |turns| ==> turns[i] + gap < turns[j]
  }

  /** The controller remembers exactly the last turn of a history, if any. */
  predicate Remembers(last: Option<nat>, turns: seq<nat>) {
    last == if turns == [] then None else Some(turns[|turns| - 1])
  }

  ghost predicate CooldownsHeld(config: Config, r: Run) {
    var refreshes := Turns(r.landings, TargetedContextRefresh);
    var replans := Turns(r.landings, VerifyAndReplan);
    && Remembers(r.controller.guard.lastRefreshTurn, refreshes)
    && Remembers(r.controller.guard.lastReplanTurn, replans)
    && SpacedBy(refreshes, config.refreshCooldownTurns)
    && SpacedBy(replans, config.replanCooldownTurns)
    && (forall i :: 0 <= i < |r.landings| ==> r.landings[i].turn >= config.minTurnsBeforeGuardrail)
    && (!config.enabled ==> r.landings == [])
  }

  lemma TurnsAppend(landings: seq<Landing>, l: Landing, action: GuardrailAction)
    ensures Turns(landings + [l], action) == Turns(landings, action) + if l.action == action then [l.turn] else []
  {
    assert (landings + [l])[..|landings|] == landings;
  }

  lemma CooldownStep(config: Config, scoring: Scoring, r: Run, e: Event)
    requires CooldownsHeld(config, r)
    ensures CooldownsHeld(config, Step(config, scoring, r, e))
  {
    hide TakeSnapshot;
    if e.Checkpoint? {
      var d := Decide(config, r.controller.guard, e.turn, e.snapshot);
      DecideIff(config, r.controller.guard, e.turn, e.snapshot);
      TurnsAppend(r.landings, Landing(e.turn, d.action), TargetedContextRefresh);
      TurnsAppend(r.landings, Landing(e.turn, d.action), VerifyAndReplan);
    }
  }

  /** In every run whatsoever, with turns in any order and however turns are started or observed: any
      two refreshes and any two replans that take effect are more than their cooldown apart, and
      nothing takes effect before the warm-up or while the controller is disabled. */
  lemma {:induction false} CooldownsAlwaysHold(config: Config, scoring: Scoring, events: seq<Event>)
    ensures CooldownsHeld(config, Execute(config, scoring, events))
  {
    if events != [] {
      CooldownsAlwaysHold(config, scoring, events[..|events| - 1]);
      CooldownStep(config, scoring, Execute(config, scoring, events[..|events| - 1]), events[|events| - 1]);
    }
  }

  lemma {:induction false} SpacingCounts(turns: seq<nat>, gap: nat, first: nat)
    requires turns != [] && SpacedBy(turns, gap) && turns[0] >= first
    ensures (|turns| - 1) * (gap + 1) + first <= turns[|turns| - 1]
  {
    var n := |turns| - 1;
    if n > 0 {
      SpacingCounts(turns[..n], gap, first);
      assert turns[n - 1] + gap < turns[n];
      assert n * (gap + 1) == (n - 1) * (gap + 1) + (gap + 1);
    }
  }

  lemma {:induction false} TurnsAreLandings(landings: seq<Landing>, action: GuardrailAction, i: nat)
    requires i < |Turns(landings, action)|
    ensures Landing(Turns(landings, action)[i], action) in landings
  {
    var n := |landings| - 1;
    assert landings == landings[..n] + [landings[n]];
    if i < |Turns(landings[..n], action)| {
      TurnsAreLandings(landings[..n], action, i);
    }
  }

  /** Counting bound: `R` refreshes by turn `horizon` need `(R-1)*(cooldown+1)` turns after the warm-up. */
  lemma RefreshesAreRationed(config: Config, scoring: Scoring, events: seq<Event>, horizon: nat)
    requires var turns := Turns(Execute(config, scoring, events).landings, TargetedContextRefresh);
             turns != [] && forall i :: 0 <= i < |turns| ==> turns[i] <= horizon
    ensures var turns := Turns(Execute(config, scoring, events).landings, TargetedContextRefresh);
            (|turns| - 1) * (config.refreshCooldownTurns + 1) + config.minTurnsBeforeGuardrail <= horizon
  {
    var r := Execute(config, scoring, events);
    var turns := Turns(r.landings, TargetedContextRefresh);
    CooldownsAlwaysHold(config, scoring, events);
    TurnsAreLandings(r.landings, TargetedContextRefresh, 0);
    SpacingCounts(turns, config.refreshCooldownTurns, config.minTurnsBeforeGuardrail);
  }

  /** An effective checkpoint whose gate is open lands what the policy proposes. */
  lemma OpenGateLands(config: Config, scoring: Scoring, r: Run, turn: nat, snapshot: Snapshot)
    requires config.enabled && turn >= config.minTurnsBeforeGuardrail
    requires DecidePolicy(snapshot) != NoIntervention
    requires GateOpen(config, r.controller.guard, turn, DecidePolicy(snapshot))
    ensures var r' := Step(config, scoring, r, Checkpoint(turn, Some(snapshot), true));
            && r'.landings == r.landings + [Landing(turn, DecidePolicy(snapshot))]
            && r'.controller == InterventionApplied(r.controller, turn, DecidePolicy(snapshot))
  {
    DecideIff(config, r.controller.guard, turn, Some(snapshot));
  }

  // ---- At most one intervention per turn ----

  /** How the engine counts turns: each start moves to a later turn, or repeats the current one only
      once it has been observed (the saturated counter); checkpoints belong to the current turn, and
      there is none before the first. */
  ghost predicate Follows(r: Run, current: nat, e: Event) {
    match e
    case TurnStart(turn) =>
      turn > current
      || (turn == current && r.controller.lastSnapshot.Some? && r.controller.lastSnapshot.value.turnIndex == turn)
    case Checkpoint(turn, _, _) => turn == current && current > 0
    case _ => true
  }

  function CurrentTurn(events: seq<Event>): nat {
    if events == [] then 0
    else match events[|events| - 1]
      case TurnStart(turn) => turn
      case _ => CurrentTurn(events[..|events| - 1])
  }

  ghost predicate Disciplined(config: Config, scoring: Scoring, events: seq<Event>) {
    events != [] ==>
      var before := events[..|events| - 1];
      && Disciplined(config, scoring, before)
      && Follows(Execute(config, scoring, before), CurrentTurn(before), events[|events| - 1])
  }

  predicate StrictlyIncreasing(landings: seq<Landing>) {
    forall i, j :: 0 <= i < j < |landings| ==> landings[i].turn < landings[j].turn
  }

  ghost predicate OncePerTurn(r: Run, current: nat) {
    && StrictlyIncreasing(r.landings)
    && (forall i :: 0 <= i < |r.landings| ==> r.landings[i].turn > 0)
    && (r.landings != [] ==>
          var last := r.landings[|r.landings| - 1].turn;
          last <= current && (last == current ==> r.controller.guard.interventionAppliedTurn == Some(current)))
  }

  function TurnAfter(current: nat, e: Event): nat {
    match e
    case TurnStart(turn) => turn
    case _ => current
  }

  lemma OncePerTurnStep(config: Config, scoring: Scoring, r: Run, current: nat, e: Event)
    requires OncePerTurn(r, current) && Follows(r, current, e)
    ensures OncePerTurn(Step(config, scoring, r, e), TurnAfter(current, e))
  {
    hide TakeSnapshot, LastN, Slack, Decide, GateOpen, DecidePolicy, Emitted, Resets;
    if e.Checkpoint? && Decide(config, r.controller.guard, e.turn, e.snapshot).action != NoIntervention {
      OpenGateIsUnmarked(config, r, e);
    }
  }

  lemma OpenGateIsUnmarked(config: Config, r: Run, e: Event)
    requires e.Checkpoint? && Decide(config, r.controller.guard, e.turn, e.snapshot).action != NoIntervention
    ensures r.controller.guard.interventionAppliedTurn != Some(e.turn)
  {
    hide DecidePolicy;
    DecideIff(config, r.controller.guard, e.turn, e.snapshot);
  }

  /** Under the engine's turn counter at most one intervention of any kind takes effect per turn. */
  lemma {:induction false} AtMostOneLandingPerTurn(config: Config, scoring: Scoring, events: seq<Event>)
    requires Disciplined(config, scoring, events)
    ensures OncePerTurn(Execute(config, scoring, events), CurrentTurn(events))
  {
    hide Step, Follows, OncePerTurn;
    if events == [] {
      OnceWhenIdle();
    } else {
      var before := events[..|events| - 1];
      AtMostOneLandingPerTurn(config, scoring, before);
      OncePerTurnStep(config, scoring, Execute(config, scoring, before), CurrentTurn(before), events[|events| - 1]);
    }
  }

  lemma OnceWhenIdle()
    ensures OncePerTurn(IDLE, 0)
  {
  }

  /** Exact: restarting a turn in which an intervention has landed lets a replan land in it too, its own cooldown
      permitting, if and only if the turn has not been observed. */
  lemma RestartReopensTurnIff(config: Config, scoring: Scoring, r: Run, severe: Snapshot, turn: nat)
    requires config.enabled && turn >= config.minTurnsBeforeGuardrail
    requires severe.riskBand == High && severe.severe
    requires r.controller.guard.interventionAppliedTurn == Some(turn)
    requires var last := r.controller.guard.lastReplanTurn;
             last.Some? ==> last.value + config.replanCooldownTurns < turn
    ensures var again := Step(config, scoring, Step(config, scoring, r, TurnStart(turn)),
                              Checkpoint(turn, Some(severe), true));
            var seen := r.controller.lastSnapshot;
            again.landings == r.landings + [Landing(turn, VerifyAndReplan)]
            <==> !(seen.Some? && seen.value.turnIndex == turn)
  {
    RestartKeepsGateIff(r.controller, turn);
    var started := Step(config, scoring, r, TurnStart(turn));
    DecideIff(config, started.controller.guard, turn, Some(severe));
  }

  /** The discipline is needed: restarting a turn before it is observed reopens it, and a refresh and
      a replan land in the same turn. */
  lemma UnobservedRestartReopensTurn(config: Config, scoring: Scoring, medium: Snapshot, severe: Snapshot, turn: nat)
    requires config.enabled && turn >= config.minTurnsBeforeGuardrail
    requires medium.riskBand == Medium && severe.riskBand == High && severe.severe
    ensures var r := Execute(config, scoring, [TurnStart(turn), Checkpoint(turn, Some(medium), true),
                                               TurnStart(turn), Checkpoint(turn, Some(severe), true)]);
            r.landings == [Landing(turn, TargetedContextRefresh), Landing(turn, VerifyAndReplan)]
  {
    var e1, e2 := TurnStart(turn), Checkpoint(turn, Some(medium), true);
    var e4 := Checkpoint(turn, Some(severe), true);
    assert [e1, e2, e1, e4][..3] == [e1, e2, e1];
    assert [e1, e2, e1][..2] == [e1, e2];
    assert [e1, e2][..1] == [e1];
    assert [e1][..0] == [];
    assert Execute(config, scoring, [e1]) == IDLE;
    OpenGateLands(config, scoring, IDLE, turn, medium);
    var r3 := Execute(config, scoring, [e1, e2, e1]);
    assert r3 == Step(config, scoring, Execute(config, scoring, [e1, e2]), e1);
    OpenGateLands(config, scoring, r3, turn, severe);
  }

  /** A replay that failed is not tried again in its turn. */
  lemma FailedReplayIsNotRetried(
    config: Config, scoring: Scoring, r: Run, turn: nat, snapshot: Option<Snapshot>, takesEffect: bool)
    ensures var failed := Step(config, scoring, r, ReplayFailure(turn));
            var acted := Step(config, scoring, failed, Checkpoint(turn, snapshot, takesEffect));
            && failed.landings == r.landings && failed.signals == r.signals
            && (acted.landings == r.landings || acted.landings[|r.landings|].action != VerifyWithToolReplay)
  {
    hide Decide, Emitted, Resets;
    ReplaysAreLimited(config, r.controller, turn, turn, snapshot);
  }

  // ---- The counting bound is exact ----

  /** The first turn at which the engine can intervene at all. */
  function FirstTurn(config: Config): nat {
    if config.minTurnsBeforeGuardrail == 0 then 1 else config.minTurnsBeforeGuardrail
  }

  /** The bound of `RefreshesAreRationed` under the engine's turn counter, whose first turn is 1. */
  lemma DisciplinedRefreshesAreRationed(config: Config, scoring: Scoring, events: seq<Event>, horizon: nat)
    requires Disciplined(config, scoring, events)
    requires var turns := Turns(Execute(config, scoring, events).landings, TargetedContextRefresh);
             turns != [] && forall i :: 0 <= i < |turns| ==> turns[i] <= horizon
    ensures var turns := Turns(Execute(config, scoring, events).landings, TargetedContextRefresh);
            (|turns| - 1) * (config.refreshCooldownTurns + 1) + FirstTurn(config) <= horizon
  {
    hide Execute, Disciplined, Turns, Remembers, StrictlyIncreasing;
    var r := Execute(config, scoring, events);
    CooldownsAlwaysHold(config, scoring, events);
    AtMostOneLandingPerTurn(config, scoring, events);
    TurnsAreLandings(r.landings, TargetedContextRefresh, 0);
    SpacingCounts(Turns(r.landings, TargetedContextRefresh), config.refreshCooldownTurns, FirstTurn(config));
  }

  /** The last of these observations reads as a medium risk on the window they all leave. */
  ghost predicate ReadsMedium(config: Config, scoring: Scoring, inputs: seq<Observation>)
    requires inputs != []
  {
    var window := LastN(SlackHistory(scoring, inputs), config.profileWindow);
    TakeSnapshot(config, scoring, window, inputs[|inputs| - 1]).riskBand == Medium
  }

  /** Each observation in turn does. */
  ghost predicate AllReadMedium(config: Config, scoring: Scoring, inputs: seq<Observation>) {
    inputs != [] ==> AllReadMedium(config, scoring, inputs[..|inputs| - 1]) && ReadsMedium(config, scoring, inputs)
  }

  /** Under a band that covers every probability any observations do. */
  lemma {:induction false} WideBandReadsMedium(config: Config, scoring: Scoring, inputs: seq<Observation>)
    requires config.lowRiskMax < 0.0 && config.mediumRiskMax >= 1.0
    ensures AllReadMedium(config, scoring, inputs)
  {
    hide HHat, Slack, ComputeProfile, LastN, SlackHistory;
    if inputs != [] {
      WideBandReadsMedium(config, scoring, inputs[..|inputs| - 1]);
      var window := LastN(SlackHistory(scoring, inputs), config.profileWindow);
      assert 0.0 <= PFail(scoring, ComputeProfile(window, scoring.sqrt)) <= 1.0;
    }
  }

  /** The turn of the `n`-th refresh (from zero) of the densest possible schedule. */
  function DensestTurn(config: Config, n: nat): nat {
    if n == 0 then FirstTurn(config)
    else DensestTurn(config, n - 1) + config.refreshCooldownTurns + 1
  }

  lemma {:induction false} DensestTurnIsBound(config: Config, n: nat)
    ensures DensestTurn(config, n) == n * (config.refreshCooldownTurns + 1) + FirstTurn(config)
  {
    if n > 0 {
      DensestTurnIsBound(config, n - 1);
      assert n * (config.refreshCooldownTurns + 1)
          == (n - 1) * (config.refreshCooldownTurns + 1) + config.refreshCooldownTurns + 1;
    }
  }

  lemma {:induction false} DensestTurnGrows(config: Config, n: nat)
    ensures DensestTurn(config, n) > 0 && DensestTurn(config, n) >= config.minTurnsBeforeGuardrail
    ensures n > 0 ==> DensestTurn(config, n) == DensestTurn(config, n - 1) + config.refreshCooldownTurns + 1
  {
    if n > 0 {
      DensestTurnGrows(config, n - 1);
    }
  }

  /** The starts of turns `from + 1` to `to`. */
  function TurnStarts(from: nat, to: nat): seq<Event> {
    if to <= from then [] else TurnStarts(from, to - 1) + [TurnStart(to)]
  }

  /** Every turn is the one after the last, as the engine counts them. */
  ghost predicate CountsByOne(events: seq<Event>) {
    events != [] ==>
      var before := events[..|events| - 1];
      var last := events[|events| - 1];
      CountsByOne(before) && (last.TurnStart? ==> last.turn == CurrentTurn(before) + 1)
  }

  /** One refresh per observation: let turns pass, observe, and let the checkpoint decide on what was observed. */
  ghost function DensestSchedule(config: Config, scoring: Scoring, inputs: seq<Observation>): seq<Event> {
    if inputs == [] then []
    else
      var n := |inputs| - 1;
      var turn := DensestTurn(config, n);
      var before := DensestSchedule(config, scoring, inputs[..n]);
      Refreshing(config, scoring, before + TurnStarts(CurrentTurn(before), turn), inputs[n].(turnIndex := turn))
  }

  ghost function Refreshing(config: Config, scoring: Scoring, started: seq<Event>, input: Observation): seq<Event> {
    var observed := started + [Observe(input)];
    observed + [Checkpoint(input.turnIndex, Execute(config, scoring, observed).controller.lastSnapshot, true)]
  }

  lemma Appended(config: Config, scoring: Scoring, events: seq<Event>, e: Event)
    ensures Execute(config, scoring, events + [e]) == Step(config, scoring, Execute(config, scoring, events), e)
    ensures CurrentTurn(events + [e]) == TurnAfter(CurrentTurn(events), e)
    ensures Disciplined(config, scoring, events + [e])
            <==> Disciplined(config, scoring, events)
                 && Follows(Execute(config, scoring, events), CurrentTurn(events), e)
    ensures CountsByOne(events + [e])
            <==> CountsByOne(events) && (e.TurnStart? ==> e.turn == CurrentTurn(events) + 1)
  {
    hide Step, Follows;
    assert (events + [e])[..|events|] == events;
  }

  /** The engine's own runs. */
  ghost predicate Counted(config: Config, scoring: Scoring, events: seq<Event>, turn: nat) {
    Disciplined(config, scoring, events) && CountsByOne(events) && CurrentTurn(events) == turn
  }

  /** Turns passed, and nothing else happened. */
  ghost predicate Idled(r: Run, r': Run) {
    && r'.landings == r.landings
    && r'.controller.slackWindow == r.controller.slackWindow
    && r'.controller.lastSnapshot == r.controller.lastSnapshot
    && r'.controller.guard.lastRefreshTurn == r.controller.guard.lastRefreshTurn
  }

  lemma IdleStep(config: Config, scoring: Scoring, r: Run, turn: nat)
    ensures Idled(r, Step(config, scoring, r, TurnStart(turn)))
    ensures (r.controller.lastSnapshot.Some? ==> r.controller.lastSnapshot.value.turnIndex < turn) ==>
              Step(config, scoring, r, TurnStart(turn)).controller.guard.interventionAppliedTurn.None?
  {
  }

  lemma {:induction false} IdleTurns(config: Config, scoring: Scoring, before: seq<Event>, from: nat, to: nat)
    requires Counted(config, scoring, before, from) && from <= to
    requires var seen := Execute(config, scoring, before).controller.lastSnapshot;
             seen.Some? ==> seen.value.turnIndex <= from
    ensures Counted(config, scoring, before + TurnStarts(from, to), to)
    ensures var r' := Execute(config, scoring, before + TurnStarts(from, to));
            && Idled(Execute(config, scoring, before), r')
            && (from < to ==> r'.controller.guard.interventionAppliedTurn.None?)
  {
    hide Execute, Step, Disciplined, CountsByOne, CurrentTurn;
    if to == from {
      assert before + TurnStarts(from, to) == before;
    } else {
      var passed := before + TurnStarts(from, to - 1);
      IdleTurns(config, scoring, before, from, to - 1);
      Appended(config, scoring, passed, TurnStart(to));
      IdleStep(config, scoring, Execute(config, scoring, passed), to);
      assert before + TurnStarts(from, to) == passed + [TurnStart(to)];
    }
  }

  /** One refresh landed for each of `inputs`, the last of them at `turn`, the last turn observed. */
  ghost predicate Refreshed(config: Config, scoring: Scoring, r: Run, inputs: seq<Observation>, turn: nat) {
    var turns := Turns(r.landings, TargetedContextRefresh);
    var guard := r.controller.guard;
    && |turns| == |inputs|
    && r.controller.slackWindow == LastN(SlackHistory(scoring, inputs), config.profileWindow)
    && (inputs == [] ==> guard.lastRefreshTurn.None? && r.controller.lastSnapshot.None?)
    && (inputs != [] ==>
          && turns[|inputs| - 1] == turn
          && guard.lastRefreshTurn == Some(turn)
          && r.controller.lastSnapshot.Some? && r.controller.lastSnapshot.value.turnIndex == turn)
  }

  lemma IdledRefreshed(config: Config, scoring: Scoring, r: Run, r': Run, inputs: seq<Observation>, turn: nat)
    requires Refreshed(config, scoring, r, inputs, turn) && Idled(r, r')
    ensures Refreshed(config, scoring, r', inputs, turn)
  {
  }

  lemma ObservedReadsMedium(
    config: Config, scoring: Scoring, c: Controller, inputs: seq<Observation>, input: Observation, turn: nat)
    requires config.enabled && c.slackWindow == LastN(SlackHistory(scoring, inputs), config.profileWindow)
    requires ReadsMedium(config, scoring, inputs + [input])
    ensures var seen := Observed(config, scoring, c, input.(turnIndex := turn));
            && seen.guard == c.guard
            && seen.slackWindow == LastN(SlackHistory(scoring, inputs + [input]), config.profileWindow)
            && seen.lastSnapshot.Some?
            && seen.lastSnapshot.value.turnIndex == turn && seen.lastSnapshot.value.riskBand == Medium
  {
    hide HHat, ComputeProfile, PFail, Band, LastN;
    HistoriesGrow(scoring, inputs, input);
    LastNOfLastN(SlackHistory(scoring, inputs), Slack(scoring, input), config.profileWindow);
    assert (inputs + [input])[|inputs|] == input;
    SlackIgnoresTurn(scoring, input, turn);
  }

  lemma SlackIgnoresTurn(scoring: Scoring, input: Observation, turn: nat)
    ensures Slack(scoring, input.(turnIndex := turn)) == Slack(scoring, input)
    ensures HHat(scoring, input.(turnIndex := turn)) == HHat(scoring, input)
  {
  }

  lemma RefreshGate(config: Config, guard: GuardrailState, turn: nat)
    requires guard.interventionAppliedTurn != Some(turn)
    requires guard.lastRefreshTurn.Some? ==> turn > guard.lastRefreshTurn.value + config.refreshCooldownTurns
    ensures GateOpen(config, guard, turn, TargetedContextRefresh)
  {
  }

  lemma RefreshRound(
    config: Config, scoring: Scoring, r: Run, inputs: seq<Observation>, input: Observation, last: nat, turn: nat)
    requires config.enabled && ReadsMedium(config, scoring, inputs + [input])
    requires Refreshed(config, scoring, r, inputs, last) && r.controller.guard.interventionAppliedTurn.None?
    requires turn >= config.minTurnsBeforeGuardrail && (inputs != [] ==> turn > last + config.refreshCooldownTurns)
    ensures var observed := Step(config, scoring, r, Observe(input.(turnIndex := turn)));
            var acted := Step(config, scoring, observed, Checkpoint(turn, observed.controller.lastSnapshot, true));
            Refreshed(config, scoring, acted, inputs + [input], turn)
  {
    hide Observed, ReadsMedium, Turns, GateOpen, LastN, SlackHistory;
    var observed := Step(config, scoring, r, Observe(input.(turnIndex := turn)));
    ObservedReadsMedium(config, scoring, r.controller, inputs, input, turn);
    RefreshGate(config, observed.controller.guard, turn);
    OpenGateLands(config, scoring, observed, turn, observed.controller.lastSnapshot.value);
    TurnsAppend(r.landings, Landing(turn, TargetedContextRefresh), TargetedContextRefresh);
  }

  /** One observation and checkpoint of the current turn. */
  lemma RefreshingRound(
    config: Config, scoring: Scoring, started: seq<Event>, inputs: seq<Observation>, input: Observation, last: nat,
    turn: nat)
    requires config.enabled && ReadsMedium(config, scoring, inputs + [input])
    requires Counted(config, scoring, started, turn) && turn > 0
    requires var r := Execute(config, scoring, started);
             Refreshed(config, scoring, r, inputs, last) && r.controller.guard.interventionAppliedTurn.None?
    requires turn >= config.minTurnsBeforeGuardrail && (inputs != [] ==> turn > last + config.refreshCooldownTurns)
    ensures var after := Refreshing(config, scoring, started, input.(turnIndex := turn));
            && Counted(config, scoring, after, turn)
            && Refreshed(config, scoring, Execute(config, scoring, after), inputs + [input], turn)
  {
    hide Step, Refreshed, ReadsMedium, Execute, Disciplined, CountsByOne, CurrentTurn;
    var observed := started + [Observe(input.(turnIndex := turn))];
    var snapshot := Execute(config, scoring, observed).controller.lastSnapshot;
    RefreshRound(config, scoring, Execute(config, scoring, started), inputs, input, last, turn);
    Appended(config, scoring, started, Observe(input.(turnIndex := turn)));
    Appended(config, scoring, observed, Checkpoint(turn, snapshot, true));
  }

  lemma {:induction false} DensestRuns(config: Config, scoring: Scoring, inputs: seq<Observation>)
    requires config.enabled && AllReadMedium(config, scoring, inputs)
    ensures var events := DensestSchedule(config, scoring, inputs);
            var turn := if inputs == [] then 0 else DensestTurn(config, |inputs| - 1);
            && Counted(config, scoring, events, turn)
            && Refreshed(config, scoring, Execute(config, scoring, events), inputs, turn)
  {
    hide Execute, Counted, Refreshed, ReadsMedium, DensestTurn, FirstTurn, Refreshing, Idled;
    if inputs == [] {
      NothingRefreshed(config, scoring);
    } else {
      var n := |inputs| - 1;
      var last := if n == 0 then 0 else DensestTurn(config, n - 1);
      var turn := DensestTurn(config, n);
      var before := DensestSchedule(config, scoring, inputs[..n]);
      DensestRuns(config, scoring, inputs[..n]);
      DensestTurnGrows(config, n);
      assert inputs[..n] + [inputs[n]] == inputs;
      StartedRound(config, scoring, before, inputs[..n], inputs[n], last, turn);
    }
  }

  /** Idle turns, then the round. */
  lemma StartedRound(
    config: Config, scoring: Scoring, before: seq<Event>, inputs: seq<Observation>, input: Observation, last: nat,
    turn: nat)
    requires config.enabled && ReadsMedium(config, scoring, inputs + [input])
    requires Counted(config, scoring, before, last) && last < turn
    requires Refreshed(config, scoring, Execute(config, scoring, before), inputs, last)
    requires turn >= config.minTurnsBeforeGuardrail && (inputs != [] ==> turn > last + config.refreshCooldownTurns)
    ensures var started := before + TurnStarts(CurrentTurn(before), turn);
            var after := Refreshing(config, scoring, started, input.(turnIndex := turn));
            && Counted(config, scoring, after, turn)
            && Refreshed(config, scoring, Execute(config, scoring, after), inputs + [input], turn)
  {
    hide Execute, ReadsMedium, Refreshing, Idled, Turns, LastN, SlackHistory, Disciplined, CountsByOne, CurrentTurn;
    var started := before + TurnStarts(last, turn);
    IdleTurns(config, scoring, before, last, turn);
    IdledRefreshed(config, scoring, Execute(config, scoring, before), Execute(config, scoring, started), inputs, last);
    RefreshingRound(config, scoring, started, inputs, input, last, turn);
  }

  lemma NothingRefreshed(config: Config, scoring: Scoring)
    ensures Counted(config, scoring, [], 0)
    ensures Refreshed(config, scoring, Execute(config, scoring, []), [], 0)
  {
  }

  /** The bound is exact: for every number of observations that each read as a medium risk when they are made, some run
      in which the turns are counted one by one lands a refresh on each, the last one right on the bound. */
  lemma RationIsAttained(config: Config, scoring: Scoring, inputs: seq<Observation>)
    requires config.enabled && AllReadMedium(config, scoring, inputs) && inputs != []
    ensures var events := DensestSchedule(config, scoring, inputs);
            var turns := Turns(Execute(config, scoring, events).landings, TargetedContextRefresh);
            && Disciplined(config, scoring, events) && CountsByOne(events)
            && |turns| == |inputs|
            && turns[|inputs| - 1] == CurrentTurn(events)
            && turns[|inputs| - 1] == (|inputs| - 1) * (config.refreshCooldownTurns + 1) + FirstTurn(config)
  {
    hide Execute, Disciplined, CountsByOne, CurrentTurn, AllReadMedium, DensestSchedule, DensestTurn, FirstTurn, Turns,
      LastN, SlackHistory;
    DensestRuns(config, scoring, inputs);
    DensestTurnIsBound(config, |inputs| - 1);
  }

  // ---- The controller composed with the ladder ----

  /** A blocked decision leaves the ladder where it was. */
  lemma BlockedCheckpointKeepsLadder(config: Config, scoring: Scoring, r: Run, e: Event, start: CoherenceState)
    requires e.Checkpoint? && Decide(config, r.controller.guard, e.turn, e.snapshot).cooldownBlocked
    ensures Fold(start, Step(config, scoring, r, e).signals) == Fold(start, r.signals)
    ensures Step(config, scoring, r, e).resets == r.resets
    ensures Step(config, scoring, r, e).landings == r.landings
  {
    DecideIff(config, r.controller.guard, e.turn, e.snapshot);
    var signal := CapacityDecision(e.snapshot.value.riskBand, NoIntervention, true);
    assert Step(config, scoring, r, e).signals == r.signals + [signal];
    FoldAppend(start, r.signals, signal);
    assert NextCoherenceState(Healthy, signal) == Healthy;
  }

  /** The checkpoint selects a replan. */
  predicate Replans(config: Config, r: Run, e: Event) {
    e.Checkpoint? && Decide(config, r.controller.guard, e.turn, e.snapshot).action == VerifyAndReplan
  }

  lemma OnlyReplansReset(d: Decision, snapshot: Option<Snapshot>, lands: bool)
    requires d.action != NoIntervention ==> snapshot.Some?
    ensures (exists s :: s in Emitted(d, snapshot, lands) && Resets(s)) <==> d.action == VerifyAndReplan
  {
    if d.action == VerifyAndReplan {
      var s := CapacityDecision(snapshot.value.riskBand, d.action, d.cooldownBlocked);
      assert Emitted(d, snapshot, lands)[0] == s;
      assert s in Emitted(d, snapshot, lands) && Resets(s);
    } else {
      forall s | s in Emitted(d, snapshot, lands) ensures !Resets(s) {
        assert NextCoherenceState(Healthy, s) != ResettingPlan;
      }
    }
  }

  lemma FoldEmitted(
    start: CoherenceState, log: seq<CoherenceSignal>, d: Decision, snapshot: Option<Snapshot>, lands: bool)
    requires d.action != NoIntervention ==> snapshot.Some?
    ensures var shown := Fold(start, log + Emitted(d, snapshot, lands));
            && (d.action == VerifyAndReplan ==> shown == ResettingPlan)
            && (d.action != VerifyAndReplan && shown == ResettingPlan ==> Fold(start, log) == ResettingPlan)
  {
    hide Fold;
    if snapshot.Some? {
      var first := CapacityDecision(snapshot.value.riskBand, d.action, d.cooldownBlocked);
      FoldAppend(start, log, first);
      FoldAppend(start, log + [first], CapacityIntervention(d.action));
      assert log + Emitted(d, snapshot, lands)
          == if lands then log + [first] + [CapacityIntervention(d.action)] else log + [first];
    } else {
      FoldAppend(start, log, CapacityIntervention(d.action));
      assert log + Emitted(d, snapshot, lands) == if lands then log + [CapacityIntervention(d.action)] else log;
    }
  }

  /** What one event does to the ladder: after a checkpoint that selects a replan it shows `ResettingPlan`, and the
      reset is recorded; no other event takes it there. */
  lemma LadderStep(config: Config, scoring: Scoring, r: Run, e: Event, start: CoherenceState)
    ensures var r' := Step(config, scoring, r, e);
            && r'.resets == r.resets + (if Replans(config, r, e) then [e.turn] else [])
            && (Replans(config, r, e) ==> Fold(start, r'.signals) == ResettingPlan)
            && (Fold(start, r'.signals) == ResettingPlan ==>
                  Replans(config, r, e) || Fold(start, r.signals) == ResettingPlan)
  {
    hide Decide, Observed, TurnStarted, ReplayFailed, InterventionApplied, Emitted, Resets, Fold;
    match e
    case Checkpoint(turn, snapshot, takesEffect) => LadderCheckpoint(config, scoring, r, e, start);
    case Compaction(stage) => FoldAppend(start, r.signals, stage.Signal());
    case _ =>
  }

  lemma LadderCheckpoint(config: Config, scoring: Scoring, r: Run, e: Event, start: CoherenceState)
    requires e.Checkpoint?
    ensures var r' := Step(config, scoring, r, e);
            && r'.resets == r.resets + (if Replans(config, r, e) then [e.turn] else [])
            && (Replans(config, r, e) ==> Fold(start, r'.signals) == ResettingPlan)
            && (Fold(start, r'.signals) == ResettingPlan ==>
                  Replans(config, r, e) || Fold(start, r.signals) == ResettingPlan)
  {
    hide Decide, InterventionApplied, Emitted, Resets, Fold;
    var d := Decide(config, r.controller.guard, e.turn, e.snapshot);
    var lands := e.takesEffect && d.action != NoIntervention;
    ActingNeedsSnapshot(config, r.controller.guard, e.turn, e.snapshot);
    OnlyReplansReset(d, e.snapshot, lands);
    FoldEmitted(start, r.signals, d, e.snapshot, lands);
  }

  lemma ActingNeedsSnapshot(config: Config, guard: GuardrailState, turn: nat, snapshot: Option<Snapshot>)
    ensures Decide(config, guard, turn, snapshot).action != NoIntervention ==> snapshot.Some?
  {
    hide DecidePolicy;
  }

  /** What a checkpoint with a snapshot shows: the state of the action it selects, or how crowded it found things, or
      what was shown before when only a gate stood in the way. Without a snapshot nothing changes. */
  lemma CheckpointShows(config: Config, scoring: Scoring, r: Run, e: Event, start: CoherenceState)
    requires e.Checkpoint?
    ensures var d := Decide(config, r.controller.guard, e.turn, e.snapshot);
            var shown := Fold(start, Step(config, scoring, r, e).signals);
            if e.snapshot.None? || d.cooldownBlocked then shown == Fold(start, r.signals)
            else match d.action
              case TargetedContextRefresh => shown == RefreshingContext
              case VerifyWithToolReplay => shown == VerifyingRecentWork
              case VerifyAndReplan => shown == ResettingPlan
              case NoIntervention => shown == if e.snapshot.value.riskBand == Low then Healthy else GettingCrowded
  {
    hide Decide, InterventionApplied, Resets, Fold;
    var d := Decide(config, r.controller.guard, e.turn, e.snapshot);
    ActingNeedsSnapshot(config, r.controller.guard, e.turn, e.snapshot);
    BlockedDoesNotAct(config, r.controller.guard, e.turn, e.snapshot);
    var log := Step(config, scoring, r, e).signals;
    if e.snapshot.None? {
      assert log == r.signals;
    } else {
      var first := CapacityDecision(e.snapshot.value.riskBand, d.action, d.cooldownBlocked);
      FoldAppend(start, r.signals, first);
      FoldAppend(start, r.signals + [first], CapacityIntervention(d.action));
      assert log == if e.takesEffect && d.action != NoIntervention
                    then r.signals + [first] + [CapacityIntervention(d.action)] else r.signals + [first];
    }
  }

  lemma BlockedDoesNotAct(config: Config, guard: GuardrailState, turn: nat, snapshot: Option<Snapshot>)
    ensures var d := Decide(config, guard, turn, snapshot); d.cooldownBlocked ==> d.action == NoIntervention
  {
    hide DecidePolicy;
  }

  /** What a compaction shows while it runs, when it is done and when it failed. */
  lemma CompactionShows(config: Config, scoring: Scoring, r: Run, start: CoherenceState)
    ensures Fold(start, Step(config, scoring, r, Compaction(Started)).signals) == RefreshingContext
    ensures Fold(start, Step(config, scoring, r, Compaction(Completed)).signals) == Healthy
    ensures Fold(start, Step(config, scoring, r, Compaction(Failed)).signals) == GettingCrowded
  {
    hide Fold;
    FoldAppend(start, r.signals, CompactionStarted);
    FoldAppend(start, r.signals, CompactionCompleted);
    FoldAppend(start, r.signals, CompactionFailed);
  }

  /** A replan selected within the cooldown of the last reset, which that reset's replan never started. */
  predicate RetriesEarly(config: Config, r: Run, e: Event) {
    && Replans(config, r, e)
    && r.resets != []
    && var last := r.resets[|r.resets| - 1];
       r.controller.guard.lastReplanTurn != Some(last) && e.turn <= last + config.replanCooldownTurns
  }

  /** Exact per-step condition: resets stay spaced unless a replan retries early, and then they do not. */
  lemma SpacedStepIff(config: Config, scoring: Scoring, r: Run, e: Event)
    requires SpacedBy(r.resets, config.replanCooldownTurns)
    ensures SpacedBy(Step(config, scoring, r, e).resets, config.replanCooldownTurns) <==> !RetriesEarly(config, r, e)
  {
    hide Step;
    LadderStep(config, scoring, r, e, Healthy);
    if Replans(config, r, e) && r.resets != [] {
      ReplanGate(config, r, e);
      SpacedAppend(r.resets, e.turn, config.replanCooldownTurns);
    }
  }

  lemma ReplanGate(config: Config, r: Run, e: Event)
    requires Replans(config, r, e)
    ensures var last := r.controller.guard.lastReplanTurn;
            last.Some? ==> last.value + config.replanCooldownTurns < e.turn
  {
    hide DecidePolicy;
    DecideIff(config, r.controller.guard, e.turn, e.snapshot);
  }

  lemma SpacedAppend(turns: seq<nat>, turn: nat, gap: nat)
    requires turns != [] && SpacedBy(turns, gap)
    ensures SpacedBy(turns + [turn], gap) <==> turns[|turns| - 1] + gap < turn
  {
    var n := |turns| - 1;
    if SpacedBy(turns + [turn], gap) {
      assert (turns + [turn])[n] + gap < (turns + [turn])[n + 1];
    }
  }

  ghost predicate NeverRetriesEarly(config: Config, scoring: Scoring, events: seq<Event>) {
    events != [] ==>
      var before := events[..|events| - 1];
      && NeverRetriesEarly(config, scoring, before)
      && !RetriesEarly(config, Execute(config, scoring, before), events[|events| - 1])
  }

  /** Over whole runs of the controller, however its marks are called: the resets are more than the replan cooldown
      apart if and only if no replan retries early. */
  lemma {:induction false} ResetsSpacedIff(config: Config, scoring: Scoring, events: seq<Event>)
    ensures SpacedBy(Execute(config, scoring, events).resets, config.replanCooldownTurns)
            <==> NeverRetriesEarly(config, scoring, events)
  {
    hide Step, RetriesEarly;
    if events != [] {
      var before := events[..|events| - 1];
      var e := events[|events| - 1];
      var r := Execute(config, scoring, before);
      ResetsSpacedIff(config, scoring, before);
      LadderStep(config, scoring, r, e, Healthy);
      if SpacedBy(r.resets, config.replanCooldownTurns) {
        SpacedStepIff(config, scoring, r, e);
      } else {
        UnspacedStays(r.resets, Step(config, scoring, r, e).resets, config.replanCooldownTurns);
      }
    }
  }

  lemma UnspacedStays(turns: seq<nat>, longer: seq<nat>, gap: nat)
    requires turns <= longer && !SpacedBy(turns, gap)
    ensures !SpacedBy(longer, gap)
  {
    var i, j :| 0 <= i < j < |turns| && !(turns[i] + gap < turns[j]);
    assert longer[i] == turns[i] && longer[j] == turns[j];
  }

  /** After event `i` the ladder shows `ResettingPlan`, and before it it did not. */
  ghost predicate Enters(config: Config, scoring: Scoring, events: seq<Event>, start: CoherenceState, i: nat) {
    && i < |events|
    && Fold(start, Execute(config, scoring, events[..i]).signals) != ResettingPlan
    && Fold(start, Execute(config, scoring, events[..i + 1]).signals) == ResettingPlan
  }

  lemma EntryIsReset(config: Config, scoring: Scoring, events: seq<Event>, start: CoherenceState, i: nat)
    requires Enters(config, scoring, events, start, i)
    ensures events[i].Checkpoint? && Replans(config, Execute(config, scoring, events[..i]), events[i])
    ensures Execute(config, scoring, events[..i + 1]).resets
         == Execute(config, scoring, events[..i]).resets + [events[i].turn]
  {
    hide Step, Decide, Fold;
    assert events[..i + 1][..i] == events[..i];
    LadderStep(config, scoring, Execute(config, scoring, events[..i]), events[i], start);
  }

  lemma {:induction false} ResetsGrow(config: Config, scoring: Scoring, events: seq<Event>, i: nat)
    requires i <= |events|
    ensures Execute(config, scoring, events[..i]).resets <= Execute(config, scoring, events).resets
  {
    hide Step, Replans;
    if i == |events| {
      assert events[..i] == events;
    } else {
      var n := |events| - 1;
      ResetsGrow(config, scoring, events[..n], i);
      assert events[..n][..i] == events[..i];
      LadderStep(config, scoring, Execute(config, scoring, events[..n]), events[n], Healthy);
    }
  }

  /** What the user sees, when no replan retries early: the ladder turns to `ResettingPlan` only at checkpoints that
      select a replan, and any two such turns are more than the replan cooldown apart. */
  lemma LadderEntriesAreSpaced(
    config: Config, scoring: Scoring, events: seq<Event>, start: CoherenceState, i: nat, j: nat)
    requires NeverRetriesEarly(config, scoring, events)
    requires i < j && Enters(config, scoring, events, start, i) && Enters(config, scoring, events, start, j)
    ensures events[i].Checkpoint? && Replans(config, Execute(config, scoring, events[..i]), events[i])
    ensures events[j].Checkpoint? && Replans(config, Execute(config, scoring, events[..j]), events[j])
    ensures events[i].turn + config.replanCooldownTurns < events[j].turn
  {
    hide Step, Replans, Fold, Execute, NeverRetriesEarly;
    var resets := Execute(config, scoring, events).resets;
    EntryIsReset(config, scoring, events, start, i);
    EntryIsReset(config, scoring, events, start, j);
    ResetsSpacedIff(config, scoring, events);
    ResetsGrow(config, scoring, events, j + 1);
    ResetsGrow(config, scoring, events[..j], i + 1);
    assert events[..j][..i + 1] == events[..i + 1];
    var first := |Execute(config, scoring, events[..i]).resets|;
    var second := |Execute(config, scoring, events[..j]).resets|;
    assert resets[first] == events[i].turn && resets[second] == events[j].turn;
  }

  /** Every replan the controller selects takes effect, as the engine's replan handler sees to. */
  ghost predicate ReplansTakeEffect(config: Config, scoring: Scoring, events: seq<Event>) {
    events != [] ==>
      var before := events[..|events| - 1];
      var e := events[|events| - 1];
      && ReplansTakeEffect(config, scoring, before)
      && (Replans(config, Execute(config, scoring, before), e) ==> e.takesEffect)
  }

  lemma LandedReplan(config: Config, scoring: Scoring, r: Run, e: Event)
    requires Replans(config, r, e) ==> e.takesEffect
    requires r.resets == Turns(r.landings, VerifyAndReplan)
    ensures var r' := Step(config, scoring, r, e); r'.resets == Turns(r'.landings, VerifyAndReplan)
  {
    hide Emitted, Resets, DecidePolicy, TakeSnapshot, Turns;
    LadderStep(config, scoring, r, e, Healthy);
    if e.Checkpoint? {
      var d := Decide(config, r.controller.guard, e.turn, e.snapshot);
      TurnsAppend(r.landings, Landing(e.turn, d.action), VerifyAndReplan);
    }
  }

  /** Under the engine's replan handler no replan ever retries early: the resets are exactly the landed replans, and
      more than the replan cooldown apart. */
  lemma {:induction false} ResetsAreSpaced(config: Config, scoring: Scoring, events: seq<Event>)
    requires ReplansTakeEffect(config, scoring, events)
    ensures var r := Execute(config, scoring, events);
            && r.resets == Turns(r.landings, VerifyAndReplan)
            && SpacedBy(r.resets, config.replanCooldownTurns)
            && NeverRetriesEarly(config, scoring, events)
  {
    hide Step, Replans, Turns;
    CooldownsAlwaysHold(config, scoring, events);
    if events != [] {
      var before := events[..|events| - 1];
      ResetsAreSpaced(config, scoring, before);
      LandedReplan(config, scoring, Execute(config, scoring, before), events[|events| - 1]);
    }
    ResetsSpacedIff(config, scoring, events);
  }

  lemma UnmarkedReplanChangesNothingElse(config: Config, scoring: Scoring, r: Run, severe: Snapshot, turn: nat)
    requires config.enabled && turn >= config.minTurnsBeforeGuardrail
    requires severe.riskBand == High && severe.severe && r.controller == FRESH
    ensures var r' := Step(config, scoring, r, Checkpoint(turn, Some(severe), false));
            r'.controller == FRESH && r'.resets == r.resets + [turn]
  {
    hide Emitted, Resets;
    LadderStep(config, scoring, r, Checkpoint(turn, Some(severe), false), Healthy);
  }

  /** The handler's mark is needed: a replan that is selected but not marked, as under the anchor-only replay of
      compaction_ops.rs, starts no cooldown, and the next one resets the plan again in the same turn. */
  lemma UnmarkedReplanResetsTwice(config: Config, scoring: Scoring, severe: Snapshot, turn: nat)
    requires config.enabled && turn >= config.minTurnsBeforeGuardrail
    requires severe.riskBand == High && severe.severe
    ensures var e := Checkpoint(turn, Some(severe), false);
            Execute(config, scoring, [e, e]).resets == [turn, turn] && !NeverRetriesEarly(config, scoring, [e, e])
  {
    hide Step;
    var e := Checkpoint(turn, Some(severe), false);
    var once := Step(config, scoring, IDLE, e);
    assert [e][..0] == [] && [e, e][..1] == [e];
    assert Execute(config, scoring, []) == IDLE;
    assert Execute(config, scoring, [e]) == once;
    assert Execute(config, scoring, [e, e]) == Step(config, scoring, once, e);
    UnmarkedReplanChangesNothingElse(config, scoring, IDLE, severe, turn);
    UnmarkedReplanChangesNothingElse(config, scoring, once, severe, turn);
    ResetsSpacedIff(config, scoring, [e, e]);
    assert !([turn, turn][0] + config.replanCooldownTurns < [turn, turn][1]);
  }
}
