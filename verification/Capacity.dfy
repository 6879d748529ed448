/** The capacity guardrail controller (crates/core/src/capacity.rs).
    `f64` is modelled by `real`; the transcendental functions and the per-model prior are parameters. */
module Capacity {
  import opened Text

  const USIZE_MAX: nat := 0xFFFF_FFFF_FFFF_FFFF

  datatype GuardrailAction = NoIntervention | TargetedContextRefresh | VerifyWithToolReplay | VerifyAndReplan

  datatype RiskBand = Low | Medium | High

  datatype Config = Config(
    enabled: bool,
    lowRiskMax: real,
    mediumRiskMax: real,
    severeMinSlack: real,
    severeViolationRatio: real,
    refreshCooldownTurns: nat,
    replanCooldownTurns: nat,
    maxReplayPerTurn: nat,
    minTurnsBeforeGuardrail: nat,
    profileWindow: nat)

  /** The numeric primitives the controller is built over. */
  datatype Scoring = Scoring(
    log2OnePlus: nat -> real,
    sigmoid: real -> real,
    sqrt: real -> real,
    modelPrior: string -> real)

  datatype Observation = Observation(
    turnIndex: nat,
    model: string,
    actionCount: nat,
    toolCalls: nat,
    uniqueRefs: nat,
    contextUsedRatio: real)

  datatype Profile = Profile(
    finalSlack: real,
    minSlack: real,
    violationRatio: real,
    slackVolatility: real,
    slackDrop: real)

  datatype Snapshot = Snapshot(
    turnIndex: nat,
    hHat: real,
    cHat: real,
    slack: real,
    profile: Profile,
    pFail: real,
    riskBand: RiskBand,
    severe: bool)

  datatype Decision = Decision(action: GuardrailAction, reason: string, cooldownBlocked: bool)

  datatype GuardrailState = GuardrailState(
    lastRefreshTurn: Option<nat>,
    lastReplanTurn: Option<nat>,
    replayCountThisTurn: nat,
    replayDisabledTurn: Option<nat>,
    interventionAppliedTurn: Option<nat>)

  datatype Controller = Controller(
    slackWindow: seq<real>,
    toolCounts: seq<nat>,
    refCounts: seq<nat>,
    guard: GuardrailState,
    lastSnapshot: Option<Snapshot>)

  const FRESH := Controller([], [], [], GuardrailState(None, None, 0, None, None), None)

  function Clamp(x: real, lo: real, hi: real): real {
    if x < lo then lo else if x > hi then hi else x
  }

  // ---- Slack windows and their profile ----

  /** The last `n` values of a history. */
  function LastN<T>(history: seq<T>, n: nat): (r: seq<T>)
    ensures |r| == if |history| <= n then |history| else n
    ensures forall i :: 0 <= i < |r| ==> r[i] == history[|history| - |r| + i]
  {
    if |history| <= n then history else history[|history| - n..]
  }

  method PushWindow<T>(window: seq<T>, value: T, maxLen: nat) returns (r: seq<T>)
    ensures r == LastN(window + [value], maxLen)
  {
    r := window + [value];
    while |r| > maxLen
      invariant |r| <= |window| + 1
      invariant |r| >= maxLen || r == window + [value]
      invariant r == (window + [value])[|window| + 1 - |r|..]
    {
      r := r[1..];
    }
  }

  function MinOf(values: seq<real>): (m: real)
    requires values != []
    ensures exists i :: 0 <= i < |values| && values[i] == m
    ensures forall i :: 0 <= i < |values| ==> m <= values[i]
  {
    if |values| == 1 then values[0]
    else
      var rest := MinOf(values[1..]);
      assert forall i :: 1 <= i < |values| ==> values[i] == values[1..][i - 1];
      if values[0] <= rest then values[0] else rest
  }

  /** How many values are zero or below. */
  function Violations(values: seq<real>): (n: nat)
    ensures n <= |values|
  {
    if values == [] then 0 else (if values[0] <= 0.0 then 1 else 0) + Violations(values[1..])
  }

  lemma {:induction false} ViolationLaws(values: seq<real>)
    ensures Violations(values) == 0 <==> forall i :: 0 <= i < |values| ==> values[i] > 0.0
    ensures Violations(values) == |values| <==> forall i :: 0 <= i < |values| ==> values[i] <= 0.0
  {
    if values != [] {
      ViolationLaws(values[1..]);
      assert forall i :: 1 <= i < |values| ==> values[i] == values[1..][i - 1];
    }
  }

  function Deltas(values: seq<real>): (d: seq<real>)
    ensures |d| == if |values| == 0 then 0 else |values| - 1
    ensures forall i :: 0 <= i < |d| ==> d[i] == values[i + 1] - values[i]
  {
    seq(if |values| == 0 then 0 else |values| - 1, i requires 0 <= i < |values| - 1 => values[i + 1] - values[i])
  }

  function Sum(values: seq<real>): real {
    if values == [] then 0.0 else values[0] + Sum(values[1..])
  }

  function Square(x: real): real { x * x }

  function SquaresAbout(values: seq<real>, mean: real): real {
    if values == [] then 0.0
    else Square(values[0] - mean) + SquaresAbout(values[1..], mean)
  }

  function Variance(values: seq<real>): real
    requires values != []
  {
    SquaresAbout(values, Sum(values) / |values| as real) / |values| as real
  }

  function ComputeProfile(window: seq<real>, sqrt: real -> real): Profile {
    if window == [] then Profile(0.0, 0.0, 0.0, 0.0, 0.0)
    else
      var n := |window|;
      var deltas := Deltas(window);
      var drop := if n >= 2 then window[n - 2] - window[n - 1] else 0.0;
      Profile(
        window[n - 1],
        MinOf(window),
        Violations(window) as real / n as real,
        if deltas == [] then 0.0 else sqrt(Variance(deltas)),
        if drop > 0.0 then drop else 0.0)
  }

  lemma PositiveProduct(x: real, y: real, product: real)
    requires x > 0.0 && y > 0.0 && product == x * y
    ensures product > 0.0
  {
  }

  lemma SquareLaws(d: real)
    ensures d != 0.0 ==> Square(d) > 0.0
    ensures d == 0.0 ==> Square(d) == 0.0
  {
    if d > 0.0 {
      PositiveProduct(d, d, Square(d));
    } else if d < 0.0 {
      PositiveProduct(-d, -d, Square(d));
    }
  }

  ghost predicate AllEqual(values: seq<real>, x: real) {
    forall i :: 0 <= i < |values| ==> values[i] == x
  }

  lemma {:induction false} SquaresAreNonnegative(values: seq<real>, mean: real)
    ensures SquaresAbout(values, mean) >= 0.0
    ensures SquaresAbout(values, mean) == 0.0 <==> AllEqual(values, mean)
  {
    if values != [] {
      SquaresAreNonnegative(values[1..], mean);
      SquareLaws(values[0] - mean);
      assert AllEqual(values, mean) <==> values[0] == mean && AllEqual(values[1..], mean) by {
        assert forall i :: 1 <= i < |values| ==> values[i] == values[1..][i - 1];
      }

    }
  }

  lemma {:induction false} SumOfEqualValues(values: seq<real>, x: real)
    requires AllEqual(values, x)
    ensures Sum(values) == |values| as real * x
  {
    if values != [] {
      SumOfEqualValues(values[1..], x);
    }
  }

  lemma QuotientLaws(k: real, n: real)
    requires n > 0.0
    ensures k >= 0.0 <==> k / n >= 0.0
    ensures k == 0.0 <==> k / n == 0.0
    ensures k <= n <==> k / n <= 1.0
    ensures k == n <==> k / n == 1.0
  {
    var q := k / n;
    assert k == q * n;
    if q < 0.0 { assert q * n < 0.0; }
    if q > 0.0 { assert q * n > 0.0; }
    if q < 1.0 { assert (1.0 - q) * n > 0.0; }
    if q > 1.0 { assert (q - 1.0) * n > 0.0; }
  }

  /** A vanishing variance says the values are all the same, and conversely. */
  lemma VarianceLaws(values: seq<real>)
    requires values != []
    ensures Variance(values) >= 0.0
    ensures Variance(values) == 0.0 <==> AllEqual(values, values[0])
  {
    var n := |values| as real;
    var mean := Sum(values) / n;
    SquaresAreNonnegative(values, mean);
    QuotientLaws(SquaresAbout(values, mean), n);
    if AllEqual(values, values[0]) {
      SumOfEqualValues(values, values[0]);
      assert (n * values[0]) / n == values[0];
    }
  }

  lemma VarianceOfTwo(x: real, y: real)
    ensures Variance([x, y]) == Square((x - y) / 2.0)
  {
    hide Square;
    assert [x, y][1..] == [y] && [y][1..] == [];
    var mean, d := (x + y) / 2.0, (x - y) / 2.0;
    assert Sum([y]) == y && Sum([x, y]) == x + y;
    assert x - mean == d && y - mean == -d;
    assert SquaresAbout([y], mean) == Square(-d) && SquaresAbout([x, y], mean) == Square(d) + Square(-d);
    SquareOfNegation(d);
  }

  lemma SquareOfNegation(d: real)
    ensures Square(-d) == Square(d)
  {
  }

  lemma {:induction false} SumAppend(a: seq<real>, b: seq<real>, mean: real)
    ensures Sum(a + b) == Sum(a) + Sum(b)
    ensures SquaresAbout(a + b, mean) == SquaresAbout(a, mean) + SquaresAbout(b, mean)
  {
    if a == [] {
      assert a + b == b;
    } else {
      assert (a + b)[1..] == a[1..] + b;
      SumAppend(a[1..], b, mean);
    }
  }

  /** Seeing everything twice does not change the variance. */
  lemma VarianceOfRepeats(values: seq<real>)
    requires values != []
    ensures Variance(values + values) == Variance(values)
  {
    hide Sum, SquaresAbout;
    var n := |values| as real;
    var mean := Sum(values) / n;
    SumAppend(values, values, mean);
    HalvesAgree(Sum(values), n);
    HalvesAgree(SquaresAbout(values, mean), n);
  }

  lemma HalvesAgree(x: real, n: real)
    requires n > 0.0
    ensures (x + x) / (n + n) == x / n
  {
  }

  /** What the rolling profile says about a non-empty window. */
  lemma ProfileLaws(window: seq<real>, sqrt: real -> real)
    requires window != []
    ensures var p := ComputeProfile(window, sqrt);
            && (exists i :: 0 <= i < |window| && window[i] == p.minSlack)
            && (forall i :: 0 <= i < |window| ==> p.minSlack <= window[i])
            && p.minSlack <= p.finalSlack == window[|window| - 1]
            && 0.0 <= p.violationRatio <= 1.0
            && (p.violationRatio > 0.0 <==> p.minSlack <= 0.0)
            && (p.violationRatio == 1.0 <==> forall i :: 0 <= i < |window| ==> window[i] <= 0.0)
            && p.slackDrop >= 0.0
            && (|window| >= 2 ==> p.finalSlack + p.slackDrop >= window[|window| - 2])
            && (p.slackDrop > 0.0 ==> p.finalSlack + p.slackDrop == window[|window| - 2])
            && (p.slackDrop > 0.0 <==> |window| >= 2 && p.finalSlack < window[|window| - 2])
  {
    ViolationLaws(window);
    QuotientLaws(Violations(window) as real, |window| as real);
  }

  /** All that is asked of the square root. */
  ghost predicate KeepsSign(sqrt: real -> real) {
    forall x :: x >= 0.0 ==> sqrt(x) >= 0.0 && (sqrt(x) == 0.0 <==> x == 0.0)
  }

  /** The volatility takes the root of a nonnegative number, and vanishes exactly when the slack moves in equal
      steps. */
  lemma VolatilityLaws(window: seq<real>, sqrt: real -> real)
    requires |window| >= 2 && KeepsSign(sqrt)
    ensures Variance(Deltas(window)) >= 0.0
    ensures var volatility := ComputeProfile(window, sqrt).slackVolatility;
            && volatility >= 0.0
            && (volatility == 0.0 <==>
                forall i :: 0 <= i < |window| - 1 ==> window[i + 1] - window[i] == window[1] - window[0])
  {
    hide Variance;
    VarianceLaws(Deltas(window));
  }

  // ---- Observation ----

  function HHat(scoring: Scoring, input: Observation): real {
    0.35 * scoring.log2OnePlus(input.actionCount)
    + 0.30 * scoring.log2OnePlus(input.toolCalls)
    + 0.20 * scoring.log2OnePlus(input.uniqueRefs)
    + 0.15 * (6.0 * Clamp(input.contextUsedRatio, 0.0, 2.0))
  }

  function Slack(scoring: Scoring, input: Observation): real {
    scoring.modelPrior(input.model) - HHat(scoring, input)
  }

  function PFail(scoring: Scoring, p: Profile): (r: real)
    ensures 0.0 <= r <= 1.0
  {
    Clamp(scoring.sigmoid(
            -1.65 * p.finalSlack - 0.85 * p.minSlack + 1.35 * p.violationRatio
            + 0.70 * p.slackVolatility + 0.28 * p.slackDrop - 0.12), 0.0, 1.0)
  }

  function Band(config: Config, pFail: real): RiskBand {
    if pFail <= config.lowRiskMax then Low
    else if pFail <= config.mediumRiskMax then Medium
    else High
  }

  /** The snapshot of one observation, given the slack window that already holds it. */
  function TakeSnapshot(config: Config, scoring: Scoring, window: seq<real>, input: Observation): Snapshot {
    var profile := ComputeProfile(window, scoring.sqrt);
    var pFail := PFail(scoring, profile);
    Snapshot(
      input.turnIndex,
      HHat(scoring, input),
      scoring.modelPrior(input.model),
      Slack(scoring, input),
      profile,
      pFail,
      Band(config, pFail),
      profile.minSlack <= config.severeMinSlack || profile.violationRatio >= config.severeViolationRatio)
  }

  function Observed(config: Config, scoring: Scoring, c: Controller, input: Observation): Controller {
    if !config.enabled then c
    else
      var window := LastN(c.slackWindow + [Slack(scoring, input)], config.profileWindow);
      c.(
      slackWindow := window,
      toolCounts := LastN(c.toolCounts + [input.toolCalls], config.profileWindow),
      refCounts := LastN(c.refCounts + [input.uniqueRefs], config.profileWindow),
      lastSnapshot := Some(TakeSnapshot(config, scoring, window, input)))
  }

  /** What one observation reports, told from the windows it leaves. */
  lemma SnapshotLaws(config: Config, scoring: Scoring, c: Controller, input: Observation)
    requires config.enabled && config.profileWindow > 0
    ensures var c' := Observed(config, scoring, c, input);
            && c'.lastSnapshot.Some? && c'.slackWindow != [] && c'.guard == c.guard
            && var seen := c'.lastSnapshot.value;
            && seen.turnIndex == input.turnIndex
            && seen.cHat == scoring.modelPrior(input.model)
            && seen.slack == seen.cHat - seen.hHat
            && seen.slack == seen.profile.finalSlack == c'.slackWindow[|c'.slackWindow| - 1]
            && 0.0 <= seen.pFail <= 1.0
            && (seen.severe <==>
                (exists i :: 0 <= i < |c'.slackWindow| && c'.slackWindow[i] <= config.severeMinSlack)
                || seen.profile.violationRatio >= config.severeViolationRatio)
  {
    hide HHat, PFail, Band, Violations, MinOf;
    var window := Observed(config, scoring, c, input).slackWindow;
    ProfileLaws(window, scoring.sqrt);
  }

  function Severity(band: RiskBand): nat {
    match band
    case Low => 0
    case Medium => 1
    case High => 2
  }

  /** The band is the probability's place between the two thresholds. */
  lemma BandLaws(config: Config, scoring: Scoring, c: Controller, input: Observation)
    requires config.enabled && config.lowRiskMax <= config.mediumRiskMax
    ensures var c' := Observed(config, scoring, c, input);
            && c'.lastSnapshot.Some?
            && var seen := c'.lastSnapshot.value;
            && (seen.riskBand == Low <==> seen.pFail <= config.lowRiskMax)
            && (seen.riskBand == Medium <==> config.lowRiskMax < seen.pFail <= config.mediumRiskMax)
            && (seen.riskBand == High <==> config.mediumRiskMax < seen.pFail)
  {
    hide HHat, PFail, ComputeProfile, LastN;
  }

  /** A larger probability never gives a milder band. */
  lemma BandIsMonotone(
    config: Config, scoring: Scoring, c: Controller, input: Observation, d: Controller, other: Observation)
    requires config.enabled && config.lowRiskMax <= config.mediumRiskMax
    requires Observed(config, scoring, c, input).lastSnapshot.Some?
    requires Observed(config, scoring, d, other).lastSnapshot.Some?
    requires Observed(config, scoring, c, input).lastSnapshot.value.pFail
          <= Observed(config, scoring, d, other).lastSnapshot.value.pFail
    ensures Severity(Observed(config, scoring, c, input).lastSnapshot.value.riskBand)
         <= Severity(Observed(config, scoring, d, other).lastSnapshot.value.riskBand)
  {
    hide Observed;
    BandLaws(config, scoring, c, input);
    BandLaws(config, scoring, d, other);
  }

  ghost predicate Nondecreasing(f: real -> real) {
    forall x, y :: x <= y ==> f(x) <= f(y)
  }

  ghost predicate NondecreasingOnCounts(f: nat -> real) {
    forall m, n :: m <= n ==> f(m) <= f(n)
  }

  /** Less slack, more violations, more volatility or a deeper drop never lower the probability. */
  lemma WorseProfileRisksMore(scoring: Scoring, better: Profile, worse: Profile)
    requires Nondecreasing(scoring.sigmoid)
    requires worse.finalSlack <= better.finalSlack && worse.minSlack <= better.minSlack
    requires better.violationRatio <= worse.violationRatio
    requires better.slackVolatility <= worse.slackVolatility && better.slackDrop <= worse.slackDrop
    ensures PFail(scoring, better) <= PFail(scoring, worse)
  {
  }

  /** How the five parts of a profile weigh against each other: the stated exchanges leave the probability alone. */
  lemma ProfileExchanges(scoring: Scoring, p: Profile, t: real)
    ensures PFail(scoring, p)
         == PFail(scoring, p.(finalSlack := p.finalSlack + 0.85 * t, minSlack := p.minSlack - 1.65 * t))
    ensures PFail(scoring, p)
         == PFail(scoring, p.(finalSlack := p.finalSlack + 1.35 * t, violationRatio := p.violationRatio + 1.65 * t))
    ensures PFail(scoring, p)
         == PFail(scoring, p.(finalSlack := p.finalSlack + 0.70 * t, slackVolatility := p.slackVolatility + 1.65 * t))
    ensures PFail(scoring, p)
         == PFail(scoring, p.(finalSlack := p.finalSlack + 0.28 * t, slackDrop := p.slackDrop + 1.65 * t))
  {
  }

  /** The scale of the profile's score and its value with no slack and no violation. */
  lemma ProfileScale(scoring: Scoring, slack: real)
    requires forall z :: 0.0 <= scoring.sigmoid(z) <= 1.0
    ensures PFail(scoring, Profile(slack, 0.0, 0.0, 0.0, 0.0)) == scoring.sigmoid(-0.12 - 1.65 * slack)
  {
    assert -1.65 * slack - 0.85 * 0.0 + 1.35 * 0.0 + 0.70 * 0.0 + 0.28 * 0.0 - 0.12 == -0.12 - 1.65 * slack;
  }

  /** More actions, tool calls, references or context never raise the slack. */
  lemma MoreLoadLessSlack(scoring: Scoring, lighter: Observation, heavier: Observation)
    requires NondecreasingOnCounts(scoring.log2OnePlus)
    requires lighter.model == heavier.model
    requires lighter.actionCount <= heavier.actionCount && lighter.toolCalls <= heavier.toolCalls
    requires lighter.uniqueRefs <= heavier.uniqueRefs && lighter.contextUsedRatio <= heavier.contextUsedRatio
    ensures Slack(scoring, heavier) <= Slack(scoring, lighter)
  {
  }

  /** What each kind of load costs by itself, and that context counts between nothing and twice the window. */
  lemma LoadCosts(scoring: Scoring, input: Observation, n: nat, ratio: real)
    ensures var log, slack := scoring.log2OnePlus, Slack(scoring, input);
            && slack - Slack(scoring, input.(actionCount := n)) == 0.35 * (log(n) - log(input.actionCount))
            && slack - Slack(scoring, input.(toolCalls := n)) == 0.30 * (log(n) - log(input.toolCalls))
            && slack - Slack(scoring, input.(uniqueRefs := n)) == 0.20 * (log(n) - log(input.uniqueRefs))
    ensures 0.0 <= input.contextUsedRatio <= 2.0 && 0.0 <= ratio <= 2.0 ==>
              Slack(scoring, input) - Slack(scoring, input.(contextUsedRatio := ratio))
              == 0.90 * (ratio - input.contextUsedRatio)
    ensures ratio < 0.0 ==>
              Slack(scoring, input.(contextUsedRatio := ratio)) == Slack(scoring, input.(contextUsedRatio := 0.0))
    ensures ratio > 2.0 ==>
              Slack(scoring, input.(contextUsedRatio := ratio)) == Slack(scoring, input.(contextUsedRatio := 2.0))
  {
  }

  function ObservedAll(config: Config, scoring: Scoring, c: Controller, inputs: seq<Observation>): Controller {
    if inputs == [] then c
    else
      var last := |inputs| - 1;
      Observed(config, scoring, ObservedAll(config, scoring, c, inputs[..last]), inputs[last])
  }

  /** What each window is fed, over a whole history. */
  function SlackHistory(scoring: Scoring, inputs: seq<Observation>): (r: seq<real>)
    ensures |r| == |inputs|
  {
    seq(|inputs|, i requires 0 <= i < |inputs| => Slack(scoring, inputs[i]))
  }

  function ToolHistory(inputs: seq<Observation>): (r: seq<nat>)
    ensures |r| == |inputs|
  {
    seq(|inputs|, i requires 0 <= i < |inputs| => inputs[i].toolCalls)
  }

  function RefHistory(inputs: seq<Observation>): (r: seq<nat>)
    ensures |r| == |inputs|
  {
    seq(|inputs|, i requires 0 <= i < |inputs| => inputs[i].uniqueRefs)
  }

  lemma LastNOfLastN<T>(history: seq<T>, value: T, n: nat)
    ensures LastN(LastN(history, n) + [value], n) == LastN(history + [value], n)
  {
  }

  lemma HistoriesGrow(scoring: Scoring, inputs: seq<Observation>, input: Observation)
    ensures SlackHistory(scoring, inputs + [input]) == SlackHistory(scoring, inputs) + [Slack(scoring, input)]
    ensures ToolHistory(inputs + [input]) == ToolHistory(inputs) + [input.toolCalls]
    ensures RefHistory(inputs + [input]) == RefHistory(inputs) + [input.uniqueRefs]
  {
  }

  ghost predicate WindowsAreTails(config: Config, scoring: Scoring, c: Controller, inputs: seq<Observation>) {
    && c.slackWindow == LastN(SlackHistory(scoring, inputs), config.profileWindow)
    && c.toolCounts == LastN(ToolHistory(inputs), config.profileWindow)
    && c.refCounts == LastN(RefHistory(inputs), config.profileWindow)
  }

  /** After any number of observations each window is exactly the tail of the whole history. */
  lemma {:induction false} WindowsAreHistoryTails(config: Config, scoring: Scoring, inputs: seq<Observation>)
    requires config.enabled
    ensures WindowsAreTails(config, scoring, ObservedAll(config, scoring, FRESH, inputs), inputs)
  {
    hide TakeSnapshot;
    if inputs != [] {
      var last := |inputs| - 1;
      WindowsAreHistoryTails(config, scoring, inputs[..last]);
      var c := ObservedAll(config, scoring, FRESH, inputs[..last]);
      ObservedWindows(config, scoring, c, inputs[..last], inputs[last]);
      assert inputs == inputs[..last] + [inputs[last]];
    }
  }

  lemma ObservedWindows(config: Config, scoring: Scoring, c: Controller, inputs: seq<Observation>, input: Observation)
    requires config.enabled
    requires WindowsAreTails(config, scoring, c, inputs)
    ensures WindowsAreTails(config, scoring, Observed(config, scoring, c, input), inputs + [input])
  {
    HistoriesGrow(scoring, inputs, input);
    LastNOfLastN(SlackHistory(scoring, inputs), Slack(scoring, input), config.profileWindow);
    LastNOfLastN(ToolHistory(inputs), input.toolCalls, config.profileWindow);
    LastNOfLastN(RefHistory(inputs), input.uniqueRefs, config.profileWindow);
  }

  // ---- Decisions ----

  function DecidePolicy(snapshot: Snapshot): GuardrailAction {
    match snapshot.riskBand
    case Low => NoIntervention
    case Medium => TargetedContextRefresh
    case High => if snapshot.severe then VerifyAndReplan else VerifyWithToolReplay
  }

  function Decide(config: Config, guard: GuardrailState, turn: nat, snapshot: Option<Snapshot>): Decision {
    if !config.enabled then Decision(NoIntervention, "capacity_controller_disabled", false)
    else if snapshot.None? then Decision(NoIntervention, "missing_capacity_data_fail_open", false)
    else if turn < config.minTurnsBeforeGuardrail then
      Decision(NoIntervention, "min_turns_before_guardrail_not_reached", false)
    else
      var proposed := DecidePolicy(snapshot.value);
      if proposed == NoIntervention then Decision(proposed, "low_risk_no_intervention", false)
      else if guard.interventionAppliedTurn == Some(turn) then
        Decision(NoIntervention, "intervention_already_applied_this_turn", true)
      else
        match proposed
        case TargetedContextRefresh =>
          if guard.lastRefreshTurn.Some? && turn <= guard.lastRefreshTurn.value + config.refreshCooldownTurns then
            Decision(NoIntervention, "refresh_cooldown_active", true)
          else Decision(proposed, "policy_selected_action", false)
        case VerifyWithToolReplay =>
          if guard.replayDisabledTurn == Some(turn) then
            Decision(NoIntervention, "replay_disabled_for_turn", true)
          else if guard.replayCountThisTurn >= config.maxReplayPerTurn then
            Decision(NoIntervention, "max_replay_per_turn_reached", true)
          else Decision(proposed, "policy_selected_action", false)
        case VerifyAndReplan =>
          if guard.lastReplanTurn.Some? && turn <= guard.lastReplanTurn.value + config.replanCooldownTurns then
            Decision(NoIntervention, "replan_cooldown_active", true)
          else Decision(proposed, "policy_selected_action", false)
        case NoIntervention => Decision(proposed, "policy_selected_action", false)
  }

  /** The gate that guards one kind of intervention. */
  ghost predicate GateOpen(config: Config, guard: GuardrailState, turn: nat, action: GuardrailAction) {
    && guard.interventionAppliedTurn != Some(turn)
    && match action
       case NoIntervention => true
       case TargetedContextRefresh =>
         guard.lastRefreshTurn.Some? ==> turn > guard.lastRefreshTurn.value + config.refreshCooldownTurns
       case VerifyWithToolReplay =>
         guard.replayDisabledTurn != Some(turn) && guard.replayCountThisTurn < config.maxReplayPerTurn
       case VerifyAndReplan =>
         guard.lastReplanTurn.Some? ==> turn > guard.lastReplanTurn.value + config.replanCooldownTurns
  }

  /** A decision intervenes exactly when the policy proposes it, the warm-up is over and its gate is
      open; it is reported as blocked exactly when only the gate stood in the way. */
  lemma DecideIff(config: Config, guard: GuardrailState, turn: nat, snapshot: Option<Snapshot>)
    ensures var d := Decide(config, guard, turn, snapshot);
            var armed := config.enabled && snapshot.Some? && turn >= config.minTurnsBeforeGuardrail;
            && (d.action != NoIntervention <==>
                armed && DecidePolicy(snapshot.value) != NoIntervention
                && GateOpen(config, guard, turn, DecidePolicy(snapshot.value)))
            && (d.action != NoIntervention ==> d.action == DecidePolicy(snapshot.value))
            && (d.cooldownBlocked <==>
                armed && DecidePolicy(snapshot.value) != NoIntervention
                && !GateOpen(config, guard, turn, DecidePolicy(snapshot.value)))
            && (d.cooldownBlocked ==> d.action == NoIntervention)
  {
  }

  /** The reason a decision gives. */
  lemma DecisionReasons(config: Config, guard: GuardrailState, turn: nat, snapshot: Option<Snapshot>)
    ensures var d := Decide(config, guard, turn, snapshot);
            && (!config.enabled ==> d.reason == "capacity_controller_disabled")
            && (config.enabled && snapshot.None? ==> d.reason == "missing_capacity_data_fail_open")
            && (config.enabled && snapshot.Some? && turn < config.minTurnsBeforeGuardrail ==>
                  d.reason == "min_turns_before_guardrail_not_reached")
            && (d.action != NoIntervention ==> d.reason == "policy_selected_action")
            && (d.cooldownBlocked ==>
                  if guard.interventionAppliedTurn == Some(turn) then
                    d.reason == "intervention_already_applied_this_turn"
                  else if snapshot.value.riskBand == Medium then d.reason == "refresh_cooldown_active"
                  else if snapshot.value.severe then d.reason == "replan_cooldown_active"
                  else if guard.replayDisabledTurn == Some(turn) then d.reason == "replay_disabled_for_turn"
                  else d.reason == "max_replay_per_turn_reached")
  {
  }

  /** Through a checkpoint, from the observation to the decision: below the lower threshold nothing is done; above it,
      unless a gate stands in the way, the refresh, the replay or the replan that the probability and the severity ask
      for, and nothing else. */
  lemma CheckpointFollowsRisk(
    config: Config, scoring: Scoring, c: Controller, input: Observation, guard: GuardrailState, turn: nat)
    requires config.enabled && config.lowRiskMax <= config.mediumRiskMax
    ensures var snapshot := Observed(config, scoring, c, input).lastSnapshot;
            && snapshot.Some?
            && var seen := snapshot.value;
            && var d := Decide(config, guard, turn, snapshot);
            && (d.action != NoIntervention || d.cooldownBlocked ==> seen.pFail > config.lowRiskMax)
            && (turn < config.minTurnsBeforeGuardrail ==> d.action == NoIntervention && !d.cooldownBlocked)
            && (turn >= config.minTurnsBeforeGuardrail && !d.cooldownBlocked ==>
                  && (d.action == TargetedContextRefresh <==>
                      config.lowRiskMax < seen.pFail <= config.mediumRiskMax)
                  && (d.action == VerifyWithToolReplay <==> config.mediumRiskMax < seen.pFail && !seen.severe)
                  && (d.action == VerifyAndReplan <==> config.mediumRiskMax < seen.pFail && seen.severe))
  {
    hide Observed;
    BandLaws(config, scoring, c, input);
    DecideIff(config, guard, turn, Observed(config, scoring, c, input).lastSnapshot);
  }

  // ---- State updates ----

  function TurnStarted(c: Controller, turn: nat): Controller {
    if c.lastSnapshot.Some? && c.lastSnapshot.value.turnIndex == turn then c
    else c.(guard := c.guard.(replayCountThisTurn := 0, replayDisabledTurn := None, interventionAppliedTurn := None))
  }

  function InterventionApplied(c: Controller, turn: nat, action: GuardrailAction): Controller {
    var guard := c.guard.(interventionAppliedTurn := Some(turn));
    c.(guard := match action
       case TargetedContextRefresh => guard.(lastRefreshTurn := Some(turn))
       case VerifyWithToolReplay =>
         guard.(replayCountThisTurn := if guard.replayCountThisTurn >= USIZE_MAX then USIZE_MAX
                                       else guard.replayCountThisTurn + 1)
       case VerifyAndReplan => guard.(lastReplanTurn := Some(turn))
       case NoIntervention => guard)
  }

  function ReplayFailed(c: Controller, turn: nat): Controller {
    c.(guard := c.guard.(replayDisabledTurn := Some(turn)))
  }

  /** Restarting the turn that was just acted upon keeps its gate shut exactly when that turn has
      already been observed. */
  lemma RestartKeepsGateIff(c: Controller, turn: nat)
    requires c.guard.interventionAppliedTurn == Some(turn)
    ensures TurnStarted(c, turn).guard.interventionAppliedTurn == Some(turn)
            <==> c.lastSnapshot.Some? && c.lastSnapshot.value.turnIndex == turn
  {
  }

  /** A failed replay is not tried again in its turn, and no turn sees more replays than its budget. */
  lemma ReplaysAreLimited(config: Config, c: Controller, turn: nat, at: nat, snapshot: Option<Snapshot>)
    ensures Decide(config, ReplayFailed(c, turn).guard, turn, snapshot).action != VerifyWithToolReplay
    ensures c.guard.replayCountThisTurn + 1 >= config.maxReplayPerTurn && config.maxReplayPerTurn <= USIZE_MAX ==>
              Decide(config, InterventionApplied(c, turn, VerifyWithToolReplay).guard, at, snapshot).action
              != VerifyWithToolReplay
    ensures config.maxReplayPerTurn == 0 ==> Decide(config, c.guard, at, snapshot).action != VerifyWithToolReplay
  {
    DecideIff(config, ReplayFailed(c, turn).guard, turn, snapshot);
    DecideIff(config, InterventionApplied(c, turn, VerifyWithToolReplay).guard, at, snapshot);
    DecideIff(config, c.guard, at, snapshot);
  }

  /** Each replay uses up one of the budget: another may follow, in a turn not marked, exactly while some is left. */
  lemma ReplayBudgetIsUsable(config: Config, c: Controller, turn: nat, at: nat)
    requires config.maxReplayPerTurn <= USIZE_MAX && at != turn && c.guard.replayDisabledTurn != Some(at)
    ensures GateOpen(config, InterventionApplied(c, turn, VerifyWithToolReplay).guard, at, VerifyWithToolReplay)
            <==> c.guard.replayCountThisTurn + 1 < config.maxReplayPerTurn
  {
  }

  /** Starting a turn that has not been observed lifts all that was held against replays and interventions in it, and
      no cooldown. */
  lemma NewTurnLiftsMarks(config: Config, c: Controller, turn: nat)
    requires c.lastSnapshot.None? || c.lastSnapshot.value.turnIndex != turn
    ensures var guard := TurnStarted(c, turn).guard;
            && (config.maxReplayPerTurn > 0 ==> GateOpen(config, guard, turn, VerifyWithToolReplay))
            && guard.lastRefreshTurn == c.guard.lastRefreshTurn && guard.lastReplanTurn == c.guard.lastReplanTurn
            && (GateOpen(config, guard, turn, VerifyAndReplan) <==>
                c.guard.lastReplanTurn.Some? ==> turn > c.guard.lastReplanTurn.value + config.replanCooldownTurns)
  {
  }

  class CapacityController {
    const config: Config
    const scoring: Scoring
    var slackWindow: seq<real>
    var recentToolCounts: seq<nat>
    var recentRefCounts: seq<nat>
    var guard: GuardrailState
    var lastSnapshot: Option<Snapshot>

    ghost function View(): Controller
      reads this
    {
      Controller(slackWindow, recentToolCounts, recentRefCounts, guard, lastSnapshot)
    }

    constructor (config: Config, scoring: Scoring)
      ensures View() == FRESH && this.config == config && this.scoring == scoring
    {
      this.config := config;
      this.scoring := scoring;
      slackWindow, recentToolCounts, recentRefCounts := [], [], [];
      guard := GuardrailState(None, None, 0, None, None);
      lastSnapshot := None;
    }

    method Observe(input: Observation) returns (snapshot: Option<Snapshot>)
      modifies this
      ensures View() == Observed(config, scoring, old(View()), input)
      ensures snapshot == if config.enabled then lastSnapshot else None
    {
      hide LastN, Slack, TakeSnapshot;
      if !config.enabled {
        return None;
      }
      slackWindow := PushWindow(slackWindow, Slack(scoring, input), config.profileWindow);
      recentToolCounts := PushWindow(recentToolCounts, input.toolCalls, config.profileWindow);
      recentRefCounts := PushWindow(recentRefCounts, input.uniqueRefs, config.profileWindow);
      snapshot := Some(TakeSnapshot(config, scoring, slackWindow, input));
      lastSnapshot := snapshot;
    }

    method MarkTurnStart(turn: nat)
      modifies this`guard
      ensures View() == TurnStarted(old(View()), turn)
    {
      var newTurn := match lastSnapshot
        case None => true
        case Some(snapshot) => snapshot.turnIndex != turn;
      if newTurn {
        guard := guard.(replayCountThisTurn := 0);
        guard := guard.(replayDisabledTurn := None);
        guard := guard.(interventionAppliedTurn := None);
      }
    }

    method MarkInterventionApplied(turn: nat, action: GuardrailAction)
      modifies this`guard
      ensures View() == InterventionApplied(old(View()), turn, action)
    {
      guard := guard.(interventionAppliedTurn := Some(turn));
      match action {
        case TargetedContextRefresh =>
          guard := guard.(lastRefreshTurn := Some(turn));
        case VerifyWithToolReplay =>
          if guard.replayCountThisTurn < USIZE_MAX {
            guard := guard.(replayCountThisTurn := guard.replayCountThisTurn + 1);
          } else {
            guard := guard.(replayCountThisTurn := USIZE_MAX);
          }
        case VerifyAndReplan =>
          guard := guard.(lastReplanTurn := Some(turn));
        case NoIntervention =>
      }
    }

    method MarkReplayFailed(turn: nat)
      modifies this`guard
      ensures View() == ReplayFailed(old(View()), turn)
    {
      guard := guard.(replayDisabledTurn := Some(turn));
    }
  }
}
