/** The user-facing coherence ladder (crates/core/src/coherence.rs). */
module Coherence {
  import opened Text
  import opened Capacity

  datatype CoherenceState = Healthy | GettingCrowded | RefreshingContext | VerifyingRecentWork | ResettingPlan

  datatype CoherenceSignal =
    | CapacityDecision(riskBand: RiskBand, decided: GuardrailAction, cooldownBlocked: bool)
    | CapacityIntervention(applied: GuardrailAction)
    | CompactionStarted
    | CompactionCompleted
    | CompactionFailed

  function OnIntervention(current: CoherenceState, action: GuardrailAction): CoherenceState {
    match action
    case NoIntervention => current
    case TargetedContextRefresh => RefreshingContext
    case VerifyWithToolReplay => VerifyingRecentWork
    case VerifyAndReplan => ResettingPlan
  }

  function NextCoherenceState(current: CoherenceState, signal: CoherenceSignal): CoherenceState {
    match signal
    case CompactionStarted => RefreshingContext
    case CompactionCompleted => Healthy
    case CompactionFailed => GettingCrowded
    case CapacityIntervention(action) => OnIntervention(current, action)
    case CapacityDecision(band, action, blocked) =>
      if action != NoIntervention then OnIntervention(current, action)
      else if blocked then current
      else if band == Low then Healthy
      else GettingCrowded
  }

  function Fold(start: CoherenceState, log: seq<CoherenceSignal>): CoherenceState {
    if log == [] then start else NextCoherenceState(Fold(start, log[..|log| - 1]), log[|log| - 1])
  }

  /** Signals that say nothing: a blocked decision, or an intervention that did not intervene. */
  predicate Neutral(signal: CoherenceSignal) {
    || (signal.CapacityDecision? && signal.decided == NoIntervention && signal.cooldownBlocked)
    || (signal.CapacityIntervention? && signal.applied == NoIntervention)
  }

  /** A signal moves the ladder to a state that does not depend on where it was, unless it is neutral,
      and then it does not move it. */
  lemma SignalTarget(s: CoherenceState, t: CoherenceState, signal: CoherenceSignal)
    ensures Neutral(signal) ==> NextCoherenceState(s, signal) == s
    ensures !Neutral(signal) ==> NextCoherenceState(s, signal) == NextCoherenceState(t, signal)
  {
  }

  /** The ladder shows the target of the last signal that said something, or the start state. */
  lemma {:induction false} FoldIsLastWord(start: CoherenceState, log: seq<CoherenceSignal>, last: int)
    requires -1 <= last < |log|
    requires last >= 0 ==> !Neutral(log[last])
    requires forall i :: last < i < |log| ==> Neutral(log[i])
    ensures Fold(start, log) == if last < 0 then start else NextCoherenceState(start, log[last])
  {
    if log != [] {
      var n := |log| - 1;
      if last == n {
        SignalTarget(Fold(start, log[..n]), start, log[n]);
      } else {
        FoldIsLastWord(start, log[..n], last);
      }
    }
  }

  /** The last signal of a log that said something. */
  function LastSaid(log: seq<CoherenceSignal>): Option<CoherenceSignal> {
    if log == [] then None
    else
      var last := log[|log| - 1];
      var silent := match last
        case CapacityDecision(_, decided, cooldownBlocked) => decided == NoIntervention && cooldownBlocked
        case CapacityIntervention(applied) => applied == NoIntervention
        case _ => false;
      if silent then LastSaid(log[..|log| - 1]) else Some(last)
  }

  /** An unblocked decision not to intervene. */
  predicate LeavesAlone(signal: CoherenceSignal) {
    signal.CapacityDecision? && signal.decided == NoIntervention && !signal.cooldownBlocked
  }

  /** A decision for an intervention, or the intervention itself. */
  predicate Announces(signal: CoherenceSignal, action: GuardrailAction) {
    || (signal.CapacityDecision? && signal.decided == action)
    || (signal.CapacityIntervention? && signal.applied == action)
  }

  /** What the ladder shows, state by state, told from the log alone. */
  lemma {:induction false} LadderShowsIff(start: CoherenceState, log: seq<CoherenceSignal>)
    ensures var shown := Fold(start, log);
            match LastSaid(log)
            case None => shown == start
            case Some(last) =>
              && (shown == Healthy <==>
                  last.CompactionCompleted? || (LeavesAlone(last) && last.riskBand == Low))
              && (shown == GettingCrowded <==>
                  last.CompactionFailed? || (LeavesAlone(last) && last.riskBand != Low))
              && (shown == RefreshingContext <==>
                  last.CompactionStarted? || Announces(last, TargetedContextRefresh))
              && (shown == VerifyingRecentWork <==> Announces(last, VerifyWithToolReplay))
              && (shown == ResettingPlan <==> Announces(last, VerifyAndReplan))
  {
    if log != [] {
      LadderShowsIff(start, log[..|log| - 1]);
    }
  }

  lemma FoldAppend(start: CoherenceState, log: seq<CoherenceSignal>, signal: CoherenceSignal)
    ensures Fold(start, log + [signal]) == NextCoherenceState(Fold(start, log), signal)
  {
    assert (log + [signal])[..|log|] == log;
  }
}
