/** The engine's budget trim (crates/runtime-server/src/core/engine/context_trim.rs), with the front
    drain it shares with crates/core/src/engine/context.rs.

    The token estimator and the pinning heuristics are parameters: both are arbitrary functions of the
    messages, as far as the trim is concerned. */
module EmergencyTrim {
  import opened Text
  import opened ContextPartition

  const MIN_RECENT_MESSAGES_TO_KEEP := 4
  const KEEP_RECENT_MESSAGES := 4

  type Estimator = seq<Message> -> nat
  type Pinner = seq<Message> -> set<nat>

  ghost predicate OverBudget(messages: seq<Message>, estimate: Estimator, budget: nat) {
    estimate(messages) > budget
  }

  /** The least drain that fits the budget, or as much as may be drained. */
  ghost predicate IsDrainCount(messages: seq<Message>, estimate: Estimator, budget: nat, drain: nat) {
    if |messages| <= MIN_RECENT_MESSAGES_TO_KEEP then drain == 0
    else
      && 1 <= drain <= |messages| - MIN_RECENT_MESSAGES_TO_KEEP
      && (forall d :: 1 <= d < drain ==> OverBudget(messages[d..], estimate, budget))
      && (OverBudget(messages[drain..], estimate, budget) ==> drain == |messages| - MIN_RECENT_MESSAGES_TO_KEEP)
  }

  method CountOldestMessagesToDrain(messages: seq<Message>, estimate: Estimator, budget: nat) returns (drain: nat)
    ensures IsDrainCount(messages, estimate, budget, drain)
  {
    if |messages| <= MIN_RECENT_MESSAGES_TO_KEEP {
      return 0;
    }
    var maxDrain := |messages| - MIN_RECENT_MESSAGES_TO_KEEP;
    for d := 1 to maxDrain + 1
      invariant forall e :: 1 <= e < d ==> OverBudget(messages[e..], estimate, budget)
    {
      if estimate(messages[d..]) <= budget {
        return d;
      }
    }
    drain := maxDrain;
  }

  lemma DrainCountIsUnique(messages: seq<Message>, estimate: Estimator, budget: nat, d: nat, e: nat)
    requires IsDrainCount(messages, estimate, budget, d) && IsDrainCount(messages, estimate, budget, e)
    ensures d == e
  {
  }

  lemma {:induction false} DrainCountExists(messages: seq<Message>, estimate: Estimator, budget: nat, from: nat)
    returns (drain: nat)
    requires |messages| > MIN_RECENT_MESSAGES_TO_KEEP ==> 1 <= from <= |messages| - MIN_RECENT_MESSAGES_TO_KEEP
    requires forall d :: 1 <= d < from && d <= |messages| ==> OverBudget(messages[d..], estimate, budget)
    ensures IsDrainCount(messages, estimate, budget, drain)
    decreases |messages| - from
  {
    if |messages| <= MIN_RECENT_MESSAGES_TO_KEEP {
      drain := 0;
    } else if !OverBudget(messages[from..], estimate, budget) || from == |messages| - MIN_RECENT_MESSAGES_TO_KEEP {
      drain := from;
    } else {
      drain := DrainCountExists(messages, estimate, budget, from + 1);
    }
  }

  ghost function DrainCount(messages: seq<Message>, estimate: Estimator, budget: nat): (drain: nat)
    ensures IsDrainCount(messages, estimate, budget, drain)
    ensures drain <= |messages|
  {
    assert exists d: nat :: IsDrainCount(messages, estimate, budget, d) by {
      var d := DrainCountExists(messages, estimate, budget, 1);
    }
    var d: nat :| IsDrainCount(messages, estimate, budget, d);
    d
  }

  ghost function FrontDrained(messages: seq<Message>, estimate: Estimator, budget: nat): seq<Message> {
    if OverBudget(messages, estimate, budget) then messages[DrainCount(messages, estimate, budget)..] else messages
  }

  /** The partition-aware loop: re-pin, classify, drop one message, while over budget. */
  ghost function PartitionTrimmed(messages: seq<Message>, estimate: Estimator, budget: nat, pin: Pinner): seq<Message>
    decreases |messages|
  {
    if OverBudget(messages, estimate, budget) && |messages| > MIN_RECENT_MESSAGES_TO_KEEP then
      NextTrimIsOldestCold(messages, KEEP_RECENT_MESSAGES, pin(messages));
      match NextMessageIndexToTrim(PartitionOf(messages, KEEP_RECENT_MESSAGES, pin(messages)), |messages|)
      case None => messages
      case Some(i) => PartitionTrimmed(RemoveAt(messages, i), estimate, budget, pin)
    else messages
  }

  /** What `trim_messages_partition_aware` leaves: drain, partition-aware loop, drain again. */
  ghost function Trimmed(messages: seq<Message>, estimate: Estimator, budget: nat, pin: Pinner): seq<Message> {
    FrontDrained(
      PartitionTrimmed(FrontDrained(messages, estimate, budget), estimate, budget, pin), estimate, budget)
  }

  method DrainToBudget(messages: seq<Message>, estimate: Estimator, budget: nat) returns (kept: seq<Message>)
    ensures kept == FrontDrained(messages, estimate, budget)
  {
    kept := messages;
    if estimate(messages) > budget {
      var drain := CountOldestMessagesToDrain(messages, estimate, budget);
      DrainCountIsUnique(messages, estimate, budget, drain, DrainCount(messages, estimate, budget));
      if drain > 0 {
        kept := messages[drain..];
      }
    }
  }

  method TrimMessagesPartitionAware(messages: seq<Message>, estimate: Estimator, budget: nat, pin: Pinner)
    returns (kept: seq<Message>, removed: nat)
    ensures kept == Trimmed(messages, estimate, budget, pin)
    ensures removed == if |kept| <= |messages| then |messages| - |kept| else 0
  {
    hide PartitionOf, NextMessageIndexToTrim, HasExternalRef, FrontDrained;
    kept := DrainToBudget(messages, estimate, budget);
    ghost var drained := kept;
    while estimate(kept) > budget && |kept| > MIN_RECENT_MESSAGES_TO_KEEP
      invariant PartitionTrimmed(kept, estimate, budget, pin) == PartitionTrimmed(drained, estimate, budget, pin)
      decreases |kept|
    {
      var partition := ClassifySessionMessages(kept, KEEP_RECENT_MESSAGES, pin(kept));
      var next := NextMessageIndexToTrim(partition, |kept|);
      NextTrimIsOldestCold(kept, KEEP_RECENT_MESSAGES, pin(kept));
      if next.None? {
        break;
      }
      kept := RemoveAt(kept, next.value);
    }
    kept := DrainToBudget(kept, estimate, budget);
    removed := if |kept| <= |messages| then |messages| - |kept| else 0;
  }

  function ExternalRefs(messages: seq<Message>): seq<Message> {
    if messages == [] then []
    else (if HasExternalRef(messages[0]) then [messages[0]] else []) + ExternalRefs(messages[1..])
  }

  lemma {:induction false} RemoveKeepsRefs(messages: seq<Message>, i: nat)
    requires i < |messages| && !HasExternalRef(messages[i])
    ensures ExternalRefs(RemoveAt(messages, i)) == ExternalRefs(messages)
  {
    hide HasExternalRef;
    if i == 0 {
      assert RemoveAt(messages, 0) == messages[1..];
    } else {
      RemoveKeepsRefs(messages[1..], i - 1);
      assert RemoveAt(messages, i)[1..] == RemoveAt(messages[1..], i - 1);
    }
  }

  /** What the partition-aware loop is for: whatever is pinned from round to round, it keeps every
      external reference, in order, and the last messages untouched. */
  lemma {:induction false} PartitionTrimKeepsRefs(messages: seq<Message>, estimate: Estimator, budget: nat, pin: Pinner)
    ensures var r := PartitionTrimmed(messages, estimate, budget, pin);
            var recent := messages[RecentStart(|messages|, KEEP_RECENT_MESSAGES)..];
            && ExternalRefs(r) == ExternalRefs(messages)
            && |r| >= |recent| && r[|r| - |recent|..] == recent
    decreases |messages|
  {
    hide HasExternalRef, PartitionOf, NextMessageIndexToTrim, ExternalRefs;
    if OverBudget(messages, estimate, budget) && |messages| > MIN_RECENT_MESSAGES_TO_KEEP {
      NextTrimIsOldestCold(messages, KEEP_RECENT_MESSAGES, pin(messages));
      var next := NextMessageIndexToTrim(PartitionOf(messages, KEEP_RECENT_MESSAGES, pin(messages)), |messages|);
      if next.Some? {
        var fewer := RemoveAt(messages, next.value);
        RemoveKeepsRefs(messages, next.value);
        PartitionTrimKeepsRefs(fewer, estimate, budget, pin);
        assert fewer[RecentStart(|fewer|, KEEP_RECENT_MESSAGES)..]
            == messages[RecentStart(|messages|, KEEP_RECENT_MESSAGES)..];
      }
    }
  }

  /** Message `i` is the oldest that is not among the last four, not pinned and without a reference; with `i` at the
      end there is none. */
  ghost predicate IsOldestFree(messages: seq<Message>, pinned: set<nat>, i: nat) {
    && i <= |messages|
    && (forall j :: 0 <= j < i ==> j + 4 >= |messages| || j in pinned || Refers(messages[j]))
    && (i < |messages| ==> i + 4 < |messages| && i !in pinned && !Refers(messages[i]))
  }

  lemma OldestFreeIsPicked(messages: seq<Message>, pinned: set<nat>, i: nat)
    requires IsOldestFree(messages, pinned, i)
    ensures NextMessageIndexToTrim(PartitionOf(messages, KEEP_RECENT_MESSAGES, pinned), |messages|)
         == if i == |messages| then None else Some(i)
  {
    hide PartitionOf, NextMessageIndexToTrim, Refers, TierOf, RecentStart, HasExternalRef;
    var tiers := TiersOf(messages, KEEP_RECENT_MESSAGES, pinned);
    forall j | 0 <= j < |messages| && j <= i ensures tiers[j] == ColdSummary <==> j == i {
      TierIff(messages, KEEP_RECENT_MESSAGES, pinned, j);
    }
    NextTrimIsOldestCold(messages, KEEP_RECENT_MESSAGES, pinned);
    if i < |messages| {
      assert tiers[i] in tiers;
    }
  }

  /** One round of the loop: over budget with more than four messages, the oldest free one goes; when there is none the
      loop ends. */
  lemma LoopRound(messages: seq<Message>, estimate: Estimator, budget: nat, pin: Pinner, i: nat)
    requires OverBudget(messages, estimate, budget) && |messages| > 4
    requires IsOldestFree(messages, pin(messages), i)
    ensures PartitionTrimmed(messages, estimate, budget, pin)
         == if i == |messages| then messages else PartitionTrimmed(RemoveAt(messages, i), estimate, budget, pin)
  {
    hide PartitionOf, NextMessageIndexToTrim, IsOldestFree;
    OldestFreeIsPicked(messages, pin(messages), i);
  }

  /** The code as written never gets that far: the first drain already fits the budget or leaves only
      the minimum, so the loop removes nothing and the whole trim is a front drain, for every
      estimator, budget and pinning. */
  lemma TrimIsFrontDrain(messages: seq<Message>, estimate: Estimator, budget: nat, pin: Pinner)
    ensures Trimmed(messages, estimate, budget, pin) == FrontDrained(messages, estimate, budget)
    ensures PartitionTrimmed(FrontDrained(messages, estimate, budget), estimate, budget, pin)
         == FrontDrained(messages, estimate, budget)
  {
    var drained := FrontDrained(messages, estimate, budget);
    assert !OverBudget(drained, estimate, budget) || |drained| <= MIN_RECENT_MESSAGES_TO_KEEP;
    assert PartitionTrimmed(drained, estimate, budget, pin) == drained;
    if OverBudget(drained, estimate, budget) {
      assert drained[0..] == drained;
    }
  }

  lemma {:induction false} DrainedRefs(messages: seq<Message>, drain: nat)
    requires drain <= |messages|
    ensures ExternalRefs(messages[drain..]) == ExternalRefs(messages)
            <==> forall i :: 0 <= i < drain ==> !HasExternalRef(messages[i])
    ensures |ExternalRefs(messages[drain..])| <= |ExternalRefs(messages)|
  {
    hide HasExternalRef;
    if drain == 0 {
      assert messages[0..] == messages;
    } else {
      DrainedRefs(messages[1..], drain - 1);
      assert messages[1..][drain - 1..] == messages[drain..];
      assert forall i :: 1 <= i < drain ==> messages[i] == messages[1..][i - 1];
    }
  }

  /** So external references survive exactly when none stands in the drained prefix. */
  lemma RefsSurviveIff(messages: seq<Message>, estimate: Estimator, budget: nat, pin: Pinner)
    ensures ExternalRefs(Trimmed(messages, estimate, budget, pin)) == ExternalRefs(messages)
            <==> !OverBudget(messages, estimate, budget)
                 || forall i :: 0 <= i < DrainCount(messages, estimate, budget) ==> !HasExternalRef(messages[i])
  {
    TrimIsFrontDrain(messages, estimate, budget, pin);
    if OverBudget(messages, estimate, budget) {
      DrainedRefs(messages, DrainCount(messages, estimate, budget));
    }
  }

  /** Over budget, whatever the estimator and whatever is pinned, a reference in front of more than four messages is
      lost, where the partition-aware loop alone would have kept every reference. */
  lemma DrainDropsRefTheLoopWouldKeep(messages: seq<Message>, estimate: Estimator, budget: nat, pin: Pinner)
    requires |messages| > 4 && HasExternalRef(messages[0])
    requires OverBudget(messages, estimate, budget)
    ensures ExternalRefs(Trimmed(messages, estimate, budget, pin)) != ExternalRefs(messages)
    ensures ExternalRefs(PartitionTrimmed(messages, estimate, budget, pin)) == ExternalRefs(messages)
  {
    hide ExternalRefs, HasExternalRef, PartitionTrimmed;
    RefsSurviveIff(messages, estimate, budget, pin);
    PartitionTrimKeepsRefs(messages, estimate, budget, pin);
  }

  /** How many messages the whole trim drops from the front. */
  ghost function Dropped(messages: seq<Message>, estimate: Estimator, budget: nat): nat {
    if OverBudget(messages, estimate, budget) then DrainCount(messages, estimate, budget) else 0
  }

  /** Message `i` and all after it are still there. */
  ghost predicate Survives(messages: seq<Message>, kept: seq<Message>, i: nat)
    requires i <= |messages|
  {
    |messages| - i <= |kept| && kept[|kept| - (|messages| - i)..] == messages[i..]
  }

  /** A message of any tier survives exactly when its index is not below the drain; the last four always do. */
  lemma SurvivesIff(messages: seq<Message>, estimate: Estimator, budget: nat, pin: Pinner, i: nat)
    requires i < |messages|
    ensures Survives(messages, Trimmed(messages, estimate, budget, pin), i)
            <==> i >= Dropped(messages, estimate, budget)
    ensures i + 4 >= |messages| ==>
              Survives(messages, Trimmed(messages, estimate, budget, pin), i)
  {
    hide Trimmed;
    TrimIsFrontDrain(messages, estimate, budget, pin);
    var d := Dropped(messages, estimate, budget);
    assert FrontDrained(messages, estimate, budget) == messages[d..];
    if i >= d {
      assert messages[d..][i - d..] == messages[i..];
    }
  }

  /** Hot, pinned and external-reference messages all survive if and only if the drain meets none of them. */
  lemma ProtectedSurviveIff(messages: seq<Message>, estimate: Estimator, budget: nat, pin: Pinner)
    ensures var tiers := TiersOf(messages, KEEP_RECENT_MESSAGES, pin(messages));
            var kept := Trimmed(messages, estimate, budget, pin);
            (forall i :: 0 <= i < |messages| && tiers[i] != ColdSummary ==> Survives(messages, kept, i))
            <==> forall i :: 0 <= i < |messages| && tiers[i] != ColdSummary ==> i >= Dropped(messages, estimate, budget)
  {
    hide Trimmed, Survives, Dropped, TiersOf;
    forall i | 0 <= i < |messages|
      ensures Survives(messages, Trimmed(messages, estimate, budget, pin), i)
              <==> i >= Dropped(messages, estimate, budget)
    {
      SurvivesIff(messages, estimate, budget, pin, i);
    }
  }
}
