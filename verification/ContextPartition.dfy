/** Hot-window / cold-zone partition of session messages (crates/core/src/context_partition.rs) and the
    emergency trim that drives it (crates/runtime-server/src/core/engine/context_trim.rs). */
module ContextPartition {
  import opened Text

  datatype ContentBlock = TextBlock(text: string) | ToolResult(content: string) | OtherBlock

  datatype Message = Message(role: string, content: seq<ContentBlock>)

  const WORKSHOP_REF_MARKER := "[workshop-ref:"

  datatype Tier = Hot | Pinned | ColdSummary | ColdExternalRef

  datatype Partition = Partition(
    keepRecentCount: nat,
    tiers: seq<Tier>,
    hotIndices: seq<nat>,
    pinnedIndices: seq<nat>,
    summaryIndices: seq<nat>,
    externalRefIndices: seq<nat>)

  function VisibleText(content: seq<ContentBlock>): string {
    if content == [] then ""
    else
      (match content[0]
       case TextBlock(t) => t
       case ToolResult(c) => c
       case OtherBlock => "")
      + VisibleText(content[1..])
  }

  predicate HasExternalRef(m: Message) {
    Contains(VisibleText(m.content), WORKSHOP_REF_MARKER)
  }

  function RecentStart(count: nat, keepRecent: nat): nat {
    if count <= keepRecent then 0 else count - keepRecent
  }

  function TierOf(messages: seq<Message>, keepRecent: nat, pinned: set<nat>, idx: nat): Tier
    requires idx < |messages|
  {
    if HasExternalRef(messages[idx]) then ColdExternalRef
    else if idx >= RecentStart(|messages|, keepRecent) then Hot
    else if idx in pinned then Pinned
    else ColdSummary
  }

  /** The text a message shows is that of its text and tool-result blocks, in order. */
  lemma {:induction false} VisibleTextLaws(a: seq<ContentBlock>, b: seq<ContentBlock>, text: string)
    ensures VisibleText(a + b) == VisibleText(a) + VisibleText(b)
    ensures VisibleText([TextBlock(text)]) == text && VisibleText([ToolResult(text)]) == text
    ensures VisibleText([OtherBlock]) == ""
  {
    if a == [] {
      assert a + b == b;
    } else {
      assert (a + b)[1..] == a[1..] + b;
      VisibleTextLaws(a[1..], b, text);
    }
  }

  /** The marker stands somewhere in the message's text. */
  ghost predicate Refers(m: Message) {
    exists k: nat :: StandsAt(VisibleText(m.content), "[workshop-ref:", k)
  }

  lemma RefersIff(m: Message)
    ensures HasExternalRef(m) <==> Refers(m)
  {
    ContainsIff(VisibleText(m.content), "[workshop-ref:");
  }

  /** Each tier, told from the message's place, the pins and its text: a reference wins over everything, then the recent
      tail, then the pins. */
  lemma TierIff(messages: seq<Message>, keepRecent: nat, pinned: set<nat>, i: nat)
    requires i < |messages|
    ensures var tier := TierOf(messages, keepRecent, pinned, i);
            && (tier == ColdExternalRef <==> Refers(messages[i]))
            && (tier == Hot <==> !Refers(messages[i]) && i + keepRecent >= |messages|)
            && (tier == Pinned <==> !Refers(messages[i]) && i + keepRecent < |messages| && i in pinned)
            && (tier == ColdSummary <==> !Refers(messages[i]) && i + keepRecent < |messages| && i !in pinned)
  {
    hide Refers, HasExternalRef;
    RefersIff(messages[i]);
  }

  function TiersOf(messages: seq<Message>, keepRecent: nat, pinned: set<nat>): (r: seq<Tier>)
    ensures |r| == |messages|
    ensures forall i :: 0 <= i < |r| ==> r[i] == TierOf(messages, keepRecent, pinned, i)
  {
    seq(|messages|, i requires 0 <= i < |messages| => TierOf(messages, keepRecent, pinned, i))
  }

  /** The indices of one tier, in increasing order. */
  function IndicesOf(tiers: seq<Tier>, tier: Tier): seq<nat> {
    if tiers == [] then []
    else
      var n := |tiers| - 1;
      IndicesOf(tiers[..n], tier) + if tiers[n] == tier then [n] else []
  }

  /** `indices` lists the places of a tier: all of them, nothing else, in increasing order. */
  ghost predicate ListsTier(indices: seq<nat>, tiers: seq<Tier>, tier: Tier) {
    && (forall k :: 0 <= k < |indices| ==> indices[k] < |tiers| && tiers[indices[k]] == tier)
    && (forall i: nat :: i < |tiers| && tiers[i] == tier ==> i in indices)
    && (forall j, k :: 0 <= j < k < |indices| ==> indices[j] < indices[k])
  }

  lemma IndicesAppend(tiers: seq<Tier>, t: Tier, tier: Tier)
    ensures IndicesOf(tiers + [t], tier) == IndicesOf(tiers, tier) + if t == tier then [|tiers|] else []
  {
    assert (tiers + [t])[..|tiers|] == tiers;
  }

  lemma ListsAppend(indices: seq<nat>, tiers: seq<Tier>, t: Tier, tier: Tier)
    requires ListsTier(indices, tiers, tier)
    ensures ListsTier(indices + if t == tier then [|tiers|] else [], tiers + [t], tier)
  {
    var grown := indices + if t == tier then [|tiers|] else [];
    forall i: nat | i <= |tiers| && (tiers + [t])[i] == tier ensures i in grown {
      if i == |tiers| {
        assert grown[|indices|] == i;
      } else {
        assert i in indices;
      }
    }
  }

  lemma {:induction false} IndicesListTier(tiers: seq<Tier>, tier: Tier)
    ensures ListsTier(IndicesOf(tiers, tier), tiers, tier)
  {
    hide ListsTier;
    if tiers == [] {
      NothingListed(tier);
    } else {
      var n := |tiers| - 1;
      IndicesListTier(tiers[..n], tier);
      ListsAppend(IndicesOf(tiers[..n], tier), tiers[..n], tiers[n], tier);
      assert tiers[..n] + [tiers[n]] == tiers;
    }
  }

  lemma NothingListed(tier: Tier)
    ensures ListsTier([], [], tier)
  {
  }

  lemma FirstOfTier(indices: seq<nat>, tiers: seq<Tier>, tier: Tier)
    requires ListsTier(indices, tiers, tier) && indices != []
    ensures indices[0] < |tiers| && tiers[indices[0]] == tier
    ensures tier !in tiers[..indices[0]]
  {
    forall i: nat | i < indices[0] ensures tiers[i] != tier {
      assert tiers[i] == tier ==> i in indices;
    }
  }

  ghost function PartitionOf(messages: seq<Message>, keepRecent: nat, pinned: set<nat>): Partition {
    var tiers := TiersOf(messages, keepRecent, pinned);
    Partition(keepRecent, tiers, IndicesOf(tiers, Hot), IndicesOf(tiers, Pinned),
              IndicesOf(tiers, ColdSummary), IndicesOf(tiers, ColdExternalRef))
  }

  lemma NoIndices()
    ensures forall tier :: IndicesOf([], tier) == []
  {
  }

  method ClassifySessionMessages(messages: seq<Message>, keepRecent: nat, pinned: set<nat>) returns (p: Partition)
    ensures p == PartitionOf(messages, keepRecent, pinned)
  {
    hide HasExternalRef, IndicesOf;
    var recentStart := RecentStart(|messages|, keepRecent);
    var tiers: seq<Tier> := [];
    var hot, pins, summary, refs: seq<nat> := [], [], [], [];
    ghost var all := TiersOf(messages, keepRecent, pinned);
    NoIndices();
    for idx := 0 to |messages|
      invariant tiers == all[..idx]
      invariant hot == IndicesOf(tiers, Hot)
      invariant pins == IndicesOf(tiers, Pinned)
      invariant summary == IndicesOf(tiers, ColdSummary)
      invariant refs == IndicesOf(tiers, ColdExternalRef)
    {
      var tier :=
        if HasExternalRef(messages[idx]) then ColdExternalRef
        else if idx >= recentStart then Hot
        else if idx in pinned then Pinned
        else ColdSummary;
      IndicesAppend(tiers, tier, Hot);
      IndicesAppend(tiers, tier, Pinned);
      IndicesAppend(tiers, tier, ColdSummary);
      IndicesAppend(tiers, tier, ColdExternalRef);
      tiers := tiers + [tier];
      match tier {
        case Hot => hot := hot + [idx];
        case Pinned => pins := pins + [idx];
        case ColdSummary => summary := summary + [idx];
        case ColdExternalRef => refs := refs + [idx];
      }
    }
    assert all[..|messages|] == all;
    p := Partition(keepRecent, tiers, hot, pins, summary, refs);
  }

  /** Indices a partition-aware trim must spare. */
  function ProtectedIndices(p: Partition): set<nat> {
    (set i | i in p.hotIndices) + (set i | i in p.pinnedIndices) + (set i | i in p.externalRefIndices)
  }

  /** The first listed index below `count`. */
  function FirstBelow(indices: seq<nat>, count: nat): Option<nat> {
    if indices == [] then None
    else if indices[0] < count then Some(indices[0])
    else FirstBelow(indices[1..], count)
  }

  function FirstOutside(protectedSet: set<nat>, from: nat, count: nat): Option<nat>
    requires from <= count
    decreases count - from
  {
    if from == count then None
    else if from !in protectedSet then Some(from)
    else FirstOutside(protectedSet, from + 1, count)
  }

  function NextMessageIndexToTrim(p: Partition, count: nat): Option<nat> {
    if count == 0 then None
    else
      var cold := FirstBelow(p.summaryIndices, count);
      if cold.Some? then cold else FirstOutside(ProtectedIndices(p), 0, count)
  }

  lemma FirstOutsideIsNone(protectedSet: set<nat>, from: nat, count: nat)
    requires from <= count && forall i: nat :: from <= i < count ==> i in protectedSet
    ensures FirstOutside(protectedSet, from, count).None?
    decreases count - from
  {
  }

  lemma EverythingProtected(messages: seq<Message>, keepRecent: nat, pinned: set<nat>)
    requires ColdSummary !in TiersOf(messages, keepRecent, pinned)
    ensures forall i: nat :: i < |messages| ==> i in ProtectedIndices(PartitionOf(messages, keepRecent, pinned))
  {
    hide IndicesOf, TierOf;
    var tiers := TiersOf(messages, keepRecent, pinned);
    IndicesListTier(tiers, Hot);
    IndicesListTier(tiers, Pinned);
    IndicesListTier(tiers, ColdExternalRef);
    forall i: nat | i < |messages| ensures i in ProtectedIndices(PartitionOf(messages, keepRecent, pinned)) {
      assert tiers[i] in tiers;
    }
  }

  /** On its own messages the trimmer picks the oldest cold-summary message, and nothing exactly when
      every message is protected: the second search never finds a victim of its own. */
  lemma NextTrimIsOldestCold(messages: seq<Message>, keepRecent: nat, pinned: set<nat>)
    ensures var tiers := TiersOf(messages, keepRecent, pinned);
            var next := NextMessageIndexToTrim(PartitionOf(messages, keepRecent, pinned), |messages|);
            && (next.None? <==> ColdSummary !in tiers)
            && (next.Some? ==>
                  && next.value < |messages|
                  && tiers[next.value] == ColdSummary
                  && ColdSummary !in tiers[..next.value]
                  && (forall i :: 0 <= i < next.value ==> tiers[i] != ColdSummary)
                  && next.value < RecentStart(|messages|, keepRecent)
                  && next.value !in pinned
                  && !HasExternalRef(messages[next.value]))
  {
    hide IndicesOf, ProtectedIndices, HasExternalRef;
    var p := PartitionOf(messages, keepRecent, pinned);
    var tiers := p.tiers;
    var cold := p.summaryIndices;
    IndicesListTier(tiers, ColdSummary);
    if cold == [] {
      EverythingProtected(messages, keepRecent, pinned);
      FirstOutsideIsNone(ProtectedIndices(p), 0, |messages|);
    } else {
      FirstOfTier(cold, tiers, ColdSummary);
    }
  }

  // ---- Trimming with a pinned set that follows its messages ----

  function RemoveAt<T>(s: seq<T>, i: nat): (r: seq<T>)
    requires i < |s|
    ensures |r| == |s| - 1
    ensures forall j :: 0 <= j < |r| ==> r[j] == if j < i then s[j] else s[j + 1]
  {
    s[..i] + s[i + 1..]
  }

  /** The pinned set after message `i` is gone: later indices move down by one. */
  function ShiftPins(pinned: set<nat>, i: nat): (r: set<nat>)
    ensures forall j: nat :: j in r <==> (if j < i then j else j + 1) in pinned
  {
    var below: set<nat> := set j: nat | j in pinned && j < i;
    var above: set<nat> := set j: nat | j in pinned && j > i :: j - 1;
    forall j: nat ensures j in below + above <==> (if j < i then j else j + 1) in pinned {
      if j >= i && j + 1 in pinned {
        assert (j + 1) - 1 in above;
      }
    }
    below + above
  }

  /** `k` rounds of classify, pick, remove. */
  ghost function TrimRounds(messages: seq<Message>, keepRecent: nat, pinned: set<nat>, k: nat): seq<Message>
    decreases k
  {
    if k == 0 then messages
    else
      NextTrimIsOldestCold(messages, keepRecent, pinned);
      match NextMessageIndexToTrim(PartitionOf(messages, keepRecent, pinned), |messages|)
      case None => messages
      case Some(i) => TrimRounds(RemoveAt(messages, i), keepRecent, ShiftPins(pinned, i), k - 1)
  }

  /** The messages without the first `k` cold-summary ones. */
  function WithoutCold(messages: seq<Message>, tiers: seq<Tier>, k: nat): seq<Message>
    requires |messages| == |tiers|
  {
    if messages == [] then []
    else if tiers[0] == ColdSummary && k > 0 then WithoutCold(messages[1..], tiers[1..], k - 1)
    else [messages[0]] + WithoutCold(messages[1..], tiers[1..], k)
  }

  function ColdCount(tiers: seq<Tier>): nat {
    if tiers == [] then 0 else (if tiers[0] == ColdSummary then 1 else 0) + ColdCount(tiers[1..])
  }

  /** The messages of every tier but cold-summary, in order. */
  function ProtectedMessages(messages: seq<Message>, tiers: seq<Tier>): seq<Message>
    requires |messages| == |tiers|
  {
    if messages == [] then []
    else (if tiers[0] == ColdSummary then [] else [messages[0]]) + ProtectedMessages(messages[1..], tiers[1..])
  }

  /** Removing a cold message leaves every other message's tier as it was. */
  lemma TiersAfterRemoval(messages: seq<Message>, keepRecent: nat, pinned: set<nat>, i: nat)
    requires i < |messages| && TierOf(messages, keepRecent, pinned, i) == ColdSummary
    ensures TiersOf(RemoveAt(messages, i), keepRecent, ShiftPins(pinned, i))
         == RemoveAt(TiersOf(messages, keepRecent, pinned), i)
  {
  }

  lemma {:induction false} RemoveFirstCold(messages: seq<Message>, tiers: seq<Tier>, i: nat, k: nat)
    requires |messages| == |tiers| && i < |tiers| && k > 0
    requires tiers[i] == ColdSummary && ColdSummary !in tiers[..i]
    ensures WithoutCold(messages, tiers, k) == WithoutCold(RemoveAt(messages, i), RemoveAt(tiers, i), k - 1)
    ensures ColdCount(tiers) == 1 + ColdCount(RemoveAt(tiers, i))
  {
    if i == 0 {
      assert RemoveAt(messages, 0) == messages[1..] && RemoveAt(tiers, 0) == tiers[1..];
    } else {
      assert tiers[0] == tiers[..i][0];
      assert tiers[1..][..i - 1] == tiers[..i][1..];
      RemoveFirstCold(messages[1..], tiers[1..], i - 1, k);
      assert RemoveAt(messages, i)[1..] == RemoveAt(messages[1..], i - 1);
      assert RemoveAt(tiers, i)[1..] == RemoveAt(tiers[1..], i - 1);
    }
  }

  lemma {:induction false} WithoutColdLaws(messages: seq<Message>, tiers: seq<Tier>, k: nat)
    requires |messages| == |tiers|
    ensures |WithoutCold(messages, tiers, k)| == |messages| - if k <= ColdCount(tiers) then k else ColdCount(tiers)
    ensures k == 0 || ColdCount(tiers) == 0 ==> WithoutCold(messages, tiers, k) == messages
    ensures k >= ColdCount(tiers) ==> WithoutCold(messages, tiers, k) == ProtectedMessages(messages, tiers)
    ensures ColdCount(tiers) == 0 <==> ColdSummary !in tiers
  {
    if messages != [] {
      WithoutColdLaws(messages[1..], tiers[1..], k);
      if k > 0 {
        WithoutColdLaws(messages[1..], tiers[1..], k - 1);
      }
      assert tiers == [tiers[0]] + tiers[1..];
      assert messages == [messages[0]] + messages[1..];
    }
  }

  /** After any number of rounds exactly the oldest cold-summary messages are gone, one per round, and
      everything else is still there in its order. */
  lemma {:induction false} RoundsRemoveOldestCold(messages: seq<Message>, keepRecent: nat, pinned: set<nat>, k: nat)
    ensures TrimRounds(messages, keepRecent, pinned, k)
         == WithoutCold(messages, TiersOf(messages, keepRecent, pinned), k)
    decreases k
  {
    hide HasExternalRef, PartitionOf, WithoutCold, ProtectedMessages, ColdCount, NextMessageIndexToTrim;
    var tiers := TiersOf(messages, keepRecent, pinned);
    WithoutColdLaws(messages, tiers, k);
    NextTrimIsOldestCold(messages, keepRecent, pinned);
    if k > 0 && ColdSummary in tiers {
      var i := NextMessageIndexToTrim(PartitionOf(messages, keepRecent, pinned), |messages|).value;
      RemoveFirstCold(messages, tiers, i, k);
      TiersAfterRemoval(messages, keepRecent, pinned, i);
      RoundsRemoveOldestCold(RemoveAt(messages, i), keepRecent, ShiftPins(pinned, i), k - 1);
    }
  }

  lemma {:induction false} TailIsKept(messages: seq<Message>, tiers: seq<Tier>, k: nat, from: nat)
    requires |messages| == |tiers| && from <= |messages|
    requires forall i :: from <= i < |tiers| ==> tiers[i] != ColdSummary
    ensures var r := WithoutCold(messages, tiers, k);
            |r| >= |messages| - from && r[|r| - (|messages| - from)..] == messages[from..]
    decreases |messages|
  {
    if from == 0 {
      WithoutColdLaws(messages, tiers, k);
      assert ColdSummary !in tiers;
      assert messages[0..] == messages;
    } else {
      TailIsKept(messages[1..], tiers[1..], if tiers[0] == ColdSummary && k > 0 then k - 1 else k, from - 1);
      assert messages[1..][from - 1..] == messages[from..];
    }
  }

  lemma RecentIsNotCold(messages: seq<Message>, keepRecent: nat, pinned: set<nat>)
    ensures forall i :: RecentStart(|messages|, keepRecent) <= i < |messages| ==>
              TiersOf(messages, keepRecent, pinned)[i] != ColdSummary
  {
    hide HasExternalRef;
  }

  /** Trimming to exhaustion takes exactly as many rounds as there were cold-summary messages, leaves
      exactly the protected messages in their order, and the recent tail is intact at every moment. */
  lemma TrimKeepsExactlyProtected(messages: seq<Message>, keepRecent: nat, pinned: set<nat>, k: nat)
    ensures var tiers := TiersOf(messages, keepRecent, pinned);
            var r := TrimRounds(messages, keepRecent, pinned, k);
            var recent := messages[RecentStart(|messages|, keepRecent)..];
            && |r| == |messages| - (if k <= ColdCount(tiers) then k else ColdCount(tiers))
            && (k >= ColdCount(tiers) <==> r == ProtectedMessages(messages, tiers))
            && |r| >= |recent| && r[|r| - |recent|..] == recent
  {
    hide TiersOf, TierOf, TrimRounds, WithoutCold, ProtectedMessages, ColdCount;
    var tiers := TiersOf(messages, keepRecent, pinned);
    RoundsRemoveOldestCold(messages, keepRecent, pinned, k);
    WithoutColdLaws(messages, tiers, k);
    WithoutColdLaws(messages, tiers, ColdCount(tiers));
    RecentIsNotCold(messages, keepRecent, pinned);
    TailIsKept(messages, tiers, k, RecentStart(|messages|, keepRecent));
  }

  lemma {:induction false} OtherTiersStay(messages: seq<Message>, tiers: seq<Tier>, k: nat, i: nat)
    returns (before: seq<Message>, after: seq<Message>)
    requires |messages| == |tiers| && i < |messages| && tiers[i] != ColdSummary
    ensures WithoutCold(messages, tiers, k) == before + [messages[i]] + after
    ensures |before| <= i && |after| < |messages| - i
    decreases |messages|
  {
    if i == 0 {
      before, after := [], WithoutCold(messages[1..], tiers[1..], k);
      WithoutColdLaws(messages[1..], tiers[1..], k);
    } else {
      var dropped := tiers[0] == ColdSummary && k > 0;
      before, after := OtherTiersStay(messages[1..], tiers[1..], if dropped then k - 1 else k, i - 1);
      if !dropped {
        before := [messages[0]] + before;
      }
    }
  }

  /** A message that is recent, pinned or refers to something is still there after any number of rounds, with no more
      before it and no more after it than there were. */
  lemma ProtectedSurvivesRounds(messages: seq<Message>, keepRecent: nat, pinned: set<nat>, k: nat, i: nat)
    returns (before: seq<Message>, after: seq<Message>)
    requires i < |messages|
    requires i + keepRecent >= |messages| || i in pinned || Refers(messages[i])
    ensures TrimRounds(messages, keepRecent, pinned, k) == before + [messages[i]] + after
    ensures |before| <= i && |after| < |messages| - i
  {
    hide TrimRounds, WithoutCold, Refers, TierOf;
    TierIff(messages, keepRecent, pinned, i);
    RoundsRemoveOldestCold(messages, keepRecent, pinned, k);
    before, after := OtherTiersStay(messages, TiersOf(messages, keepRecent, pinned), k, i);
  }
}
