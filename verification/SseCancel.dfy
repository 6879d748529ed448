/** The cancel-flag registry of the desktop SSE proxy (crates/desktop/src/runtime_proxy.rs).

    The mutex-guarded global map is a class whose methods are the critical sections of the source.
    An `Arc<AtomicBool>` is an index into a growing heap of flags, so flag identity is index identity. */
module SseRegistry {
  import opened Text

  /** One in-flight consumer's bucket: (window label, thread id). */
  datatype Key = Key(window: string, thread: string)

  datatype Registry = Registry(entries: map<Key, nat>, flags: seq<bool>)

  ghost predicate PointsInto(r: Registry) {
    forall k :: k in r.entries ==> r.entries[k] < |r.flags|
  }

  /** The bucket `runtime_get_sse` derives: the trimmed thread id, or the request path. */
  function ThreadBucket(threadId: Option<string>, path: string): string {
    if threadId.Some? && Trim(threadId.value) != "" then Trim(threadId.value) else path
  }

  ghost function Armed(r: Registry, key: Key): (r': Registry)
    requires PointsInto(r)
    ensures PointsInto(r')
  {
    var superseded := if key in r.entries then r.flags[r.entries[key] := true] else r.flags;
    Registry(r.entries[key := |r.flags|], superseded + [false])
  }

  ghost function Disarmed(r: Registry, key: Key): (r': Registry)
    requires PointsInto(r)
    ensures PointsInto(r')
  {
    r.(entries := r.entries - {key})
  }

  /** Some entry of `window` points at flag `f`. */
  ghost predicate PointedFrom(r: Registry, window: string, f: nat) {
    exists k :: k in r.entries && k.window == window && r.entries[k] == f
  }

  ghost function CancelledWindow(r: Registry, window: string): (r': Registry)
    requires PointsInto(r)
    ensures PointsInto(r') && r'.entries == r.entries && |r'.flags| == |r.flags|
  {
    r.(flags := seq(|r.flags|, f requires 0 <= f < |r.flags| => r.flags[f] || PointedFrom(r, window, f)))
  }

  ghost function CancelledKey(r: Registry, key: Key): (r': Registry)
    requires PointsInto(r)
    ensures PointsInto(r') && r'.entries == r.entries && |r'.flags| == |r.flags|
  {
    if key in r.entries then r.(flags := r.flags[r.entries[key] := true]) else r
  }

  /** `runtime_cancel_sse`: a missing or blank thread id cancels the whole window. */
  ghost function CancelRequested(r: Registry, window: string, threadId: Option<string>): (r': Registry)
    requires PointsInto(r)
    ensures PointsInto(r') && r'.entries == r.entries && |r'.flags| == |r.flags|
  {
    if threadId.None? || Trim(threadId.value) == "" then CancelledWindow(r, window)
    else CancelledKey(r, Key(window, Trim(threadId.value)))
  }

  lemma CancelSetsEntry(r: Registry, window: string, threadId: Option<string>, key: Key)
    requires PointsInto(r) && key in r.entries && key.window == window
    requires threadId.None? || Trim(threadId.value) == "" || key.thread == Trim(threadId.value)
    ensures CancelRequested(r, window, threadId).flags[r.entries[key]]
  {
    hide Trim;
    assert PointedFrom(r, window, r.entries[key]);
  }

  lemma CancelChangesPointedFlags(r: Registry, window: string, threadId: Option<string>, f: nat)
    requires PointsInto(r) && f < |r.flags|
    ensures r.flags[f] ==> CancelRequested(r, window, threadId).flags[f]
    ensures CancelRequested(r, window, threadId).flags[f] != r.flags[f] ==>
              exists k :: k in r.entries && r.entries[k] == f
  {
    hide Trim;
  }

  class SseCancelFlags {
    var entries: map<Key, nat>
    var flags: seq<bool>

    ghost function View(): Registry
      reads this
    {
      Registry(entries, flags)
    }

    ghost predicate Valid()
      reads this
    {
      PointsInto(View())
    }

    constructor ()
      ensures Valid() && View() == Registry(map[], [])
    {
      entries := map[];
      flags := [];
    }

    method Arm(key: Key) returns (flag: nat)
      requires Valid()
      modifies this
      ensures Valid() && View() == Armed(old(View()), key)
      ensures flag == |old(flags)| && !flags[flag]
    {
      flag := |flags|;
      flags := flags + [false];
      if key in entries {
        flags := flags[entries[key] := true];
      }
      entries := entries[key := flag];
    }

    method Disarm(key: Key)
      requires Valid()
      modifies this
      ensures Valid() && View() == Disarmed(old(View()), key)
    {
      entries := entries - {key};
    }

    method CancelAllForWindow(window: string)
      requires Valid()
      modifies this`flags
      ensures Valid() && View() == CancelledWindow(old(View()), window)
    {
      var pending := entries.Keys;
      while pending != {}
        invariant pending <= entries.Keys
        invariant |flags| == |old(flags)|
        invariant forall f :: 0 <= f < |flags| ==>
          (flags[f] <==>
            (old(flags)[f] || exists k :: k in entries && k !in pending && k.window == window && entries[k] == f))
        decreases pending
      {
        var key :| key in pending;
        if key.window == window {
          flags := flags[entries[key] := true];
        }
        pending := pending - {key};
      }
    }

    method CancelSse(window: string, threadId: Option<string>)
      requires Valid()
      modifies this`flags
      ensures Valid() && View() == CancelRequested(old(View()), window, threadId)
    {
      match threadId {
        case Some(raw) =>
          var tid := Trim(raw);
          if tid == "" {
            CancelAllForWindow(window);
          } else if Key(window, tid) in entries {
            flags := flags[entries[Key(window, tid)] := true];
          }
        case None =>
          CancelAllForWindow(window);
      }
    }
  }
}

/** Every interleaving of SSE consumers, re-arms and cancel requests over the registry. */
module SseProtocol {
  import opened Text
  import opened SseRegistry

  /** Where a consumer of `runtime_get_sse` stands once its request is answered and it is armed.
      Polling:    about to load its flag at the loop head
      Receiving:  flag was clear, awaiting the next chunk
      Leaving:    loop left, disarm is next; Failing: the same after a stream error
      Checking:   disarmed, about to load its flag for the last time
      Completing: last load was clear, about to emit `events-done`
      Returned:   the call is over; Errored: over after a stream error
      Aborted:    an emission failed, the call is over without what would have followed */
  datatype Pc = Polling | Receiving | Leaving | Failing | Checking | Completing | Returned | Errored | Aborted

  datatype Consumer = Consumer(key: Key, pc: Pc, chunks: nat, done: bool)

  /** Consumer `i` holds flag `i`: arming creates both. `requests` are the buckets of calls that still await the HTTP
      response and have not armed yet. */
  datatype System = System(registry: Registry, consumers: seq<Consumer>, requests: multiset<Key>)

  ghost predicate WellFormed(s: System) {
    PointsInto(s.registry) && |s.registry.flags| == |s.consumers|
  }

  type State = s: System | WellFormed(s) ghost witness System(Registry(map[], []), [], multiset{})

  ghost const START: State := System(Registry(map[], []), [], multiset{})

  datatype Step =
    | Request(key: Key)
    | RequestFailed(key: Key)
    | Arm(key: Key)
    | Cancel(window: string, threadId: Option<string>)
    | Poll(i: nat)
    | Chunk(i: nat)
    | ChunkLost(i: nat)
    | StreamError(i: nat)
    | StreamEnd(i: nat)
    | Disarm(i: nat)
    | FinalCheck(i: nat)
    | EmitDone(i: nat)
    | DoneLost(i: nat)

  /** What `disarm` removes: whatever its key maps to (the code), or only its own flag. */
  datatype Policy = ByKey | ByIdentity

  ghost predicate At(s: State, i: nat, pc: Pc) {
    i < |s.consumers| && s.consumers[i].pc == pc
  }

  ghost predicate Enabled(s: State, step: Step) {
    match step
    case Request(_) => true
    case RequestFailed(key) => key in s.requests
    case Arm(key) => key in s.requests
    case Cancel(_, _) => true
    case Poll(i) => At(s, i, Polling)
    case Chunk(i) => At(s, i, Receiving)
    case ChunkLost(i) => At(s, i, Receiving)
    case StreamError(i) => At(s, i, Receiving)
    case StreamEnd(i) => At(s, i, Receiving)
    case Disarm(i) => At(s, i, Leaving) || At(s, i, Failing)
    case FinalCheck(i) => At(s, i, Checking)
    case EmitDone(i) => At(s, i, Completing)
    case DoneLost(i) => At(s, i, Completing)
  }

  ghost function Goto(s: State, i: nat, pc: Pc): State
    requires i < |s.consumers|
  {
    s.(consumers := s.consumers[i := s.consumers[i].(pc := pc)])
  }

  ghost function Next(policy: Policy, s: State, step: Step): State
    requires Enabled(s, step)
  {
    match step
    case Request(key) => s.(requests := s.requests + multiset{key})
    case RequestFailed(key) => s.(requests := s.requests - multiset{key})
    case Arm(key) =>
      System(Armed(s.registry, key), s.consumers + [Consumer(key, Polling, 0, false)], s.requests - multiset{key})
    case Cancel(window, threadId) => s.(registry := CancelRequested(s.registry, window, threadId))
    case Poll(i) => Goto(s, i, if s.registry.flags[i] then Leaving else Receiving)
    case Chunk(i) =>
      var c := s.consumers[i];
      s.(consumers := s.consumers[i := c.(pc := Polling, chunks := c.chunks + 1)])
    case ChunkLost(i) => Goto(s, i, Aborted)
    case StreamError(i) => Goto(s, i, Failing)
    case StreamEnd(i) => Goto(s, i, Leaving)
    case Disarm(i) =>
      var c := s.consumers[i];
      var s' := Goto(s, i, if c.pc == Failing then Errored else Checking);
      if policy == ByIdentity && !Holds(s, i) then s'
      else s'.(registry := Disarmed(s.registry, c.key))
    case FinalCheck(i) => Goto(s, i, if s.registry.flags[i] then Returned else Completing)
    case EmitDone(i) => s.(consumers := s.consumers[i := s.consumers[i].(pc := Returned, done := true)])
    case DoneLost(i) => Goto(s, i, Aborted)
  }

  /** A finite run: every step is enabled when it is taken. */
  ghost predicate IsRun(policy: Policy, s: State, steps: seq<Step>)
    decreases |steps|
  {
    steps != [] ==> Enabled(s, steps[0]) && IsRun(policy, Next(policy, s, steps[0]), steps[1..])
  }

  ghost function Final(policy: Policy, s: State, steps: seq<Step>): State
    requires IsRun(policy, s, steps)
    decreases |steps|
  {
    if steps == [] then s else Final(policy, Next(policy, s, steps[0]), steps[1..])
  }

  /** The registry maps consumer `i`'s key to consumer `i`'s own flag. */
  ghost predicate Holds(s: State, i: nat) {
    i < |s.consumers| && s.consumers[i].key in s.registry.entries && s.registry.entries[s.consumers[i].key] == i
  }

  /** Armed and not yet past its disarm. */
  ghost predicate Live(s: State, i: nat) {
    i < |s.consumers| && s.consumers[i].pc in {Polling, Receiving, Leaving, Failing}
  }

  ghost predicate LiveUncancelled(s: State, i: nat) {
    Live(s, i) && !s.registry.flags[i]
  }

  /** The protocol's promise: whoever still streams uncancelled can be found in the registry. */
  ghost predicate Reachable(s: State) {
    forall i :: LiveUncancelled(s, i) ==> Holds(s, i)
  }

  /** Facts of every run, whatever `disarm` removes. */
  ghost predicate Base(s: State) {
    && (forall k :: k in s.registry.entries ==> s.consumers[s.registry.entries[k]].key == k)
    && (forall i :: 0 <= i < |s.consumers| && s.consumers[i].pc in {Checking, Completing, Returned} ==> !Holds(s, i))
    && (forall i :: 0 <= i < |s.consumers| && s.consumers[i].pc == Completing ==> !s.registry.flags[i])
    && (forall i :: 0 <= i < |s.consumers| && s.consumers[i].done ==>
          s.consumers[i].pc == Returned && !s.registry.flags[i])
  }

  /** A flag changes only while the registry still maps its owner's key to it. */
  lemma FlagOnlyThroughEntry(policy: Policy, s: State, step: Step, i: nat)
    requires Base(s) && Enabled(s, step) && i < |s.consumers|
    ensures s.registry.flags[i] ==> Next(policy, s, step).registry.flags[i]
    ensures !Holds(s, i) ==>
              !Holds(Next(policy, s, step), i) && Next(policy, s, step).registry.flags[i] == s.registry.flags[i]
  {
    hide CancelRequested, Trim;
    if step.Cancel? {
      CancelChangesPointedFlags(s.registry, step.window, step.threadId, i);
      if k :| k in s.registry.entries && s.registry.entries[k] == i {
        assert s.consumers[i].key == k;
      }
    }
  }

  ghost predicate BaseAt(s: State, i: nat)
    requires i < |s.consumers|
  {
    && (s.consumers[i].pc in {Checking, Completing, Returned} ==> !Holds(s, i))
    && (s.consumers[i].pc == Completing ==> !s.registry.flags[i])
    && (s.consumers[i].done ==> s.consumers[i].pc == Returned && !s.registry.flags[i])
  }

  lemma BaseHere(s: State, i: nat)
    requires Base(s) && i < |s.consumers|
    ensures BaseAt(s, i)
  {
    hide Holds;
  }

  lemma BaseStepAt(policy: Policy, s: State, step: Step, i: nat)
    requires Base(s) && Enabled(s, step) && i < |s.consumers|
    ensures BaseAt(Next(policy, s, step), i)
  {
    hide Base, CancelRequested, Armed, Disarmed, Trim, Holds;
    BaseHere(s, i);
    FlagOnlyThroughEntry(policy, s, step, i);
    if step.Disarm? {
      DisarmReleases(policy, s, step);
    }
  }

  lemma ArmedIsBase(policy: Policy, s: State, key: Key)
    requires Base(s) && Enabled(s, Arm(key))
    ensures var s' := Next(policy, s, Arm(key));
            |s'.consumers| == |s.consumers| + 1 && BaseAt(s', |s.consumers|)
  {
    hide Trim;
  }

  lemma BaseStep(policy: Policy, s: State, step: Step)
    requires Base(s) && Enabled(s, step)
    ensures Base(Next(policy, s, step))
  {
    hide CancelRequested, Trim, Holds;
    var s' := Next(policy, s, step);
    EntriesKeepOwner(policy, s, step);
    forall i: nat | i < |s'.consumers|
      ensures s'.consumers[i].pc in {Checking, Completing, Returned} ==> !Holds(s', i)
      ensures s'.consumers[i].pc == Completing ==> !s'.registry.flags[i]
      ensures s'.consumers[i].done ==> s'.consumers[i].pc == Returned && !s'.registry.flags[i]
    {
      if i < |s.consumers| {
        BaseStepAt(policy, s, step, i);
      } else {
        ArmedIsBase(policy, s, step.key);
      }
    }
  }

  lemma EntriesKeepOwner(policy: Policy, s: State, step: Step)
    requires Base(s) && Enabled(s, step)
    ensures var s' := Next(policy, s, step);
            forall k :: k in s'.registry.entries ==> s'.consumers[s'.registry.entries[k]].key == k
  {
    hide CancelRequested, Trim;
  }

  lemma DisarmReleases(policy: Policy, s: State, step: Step)
    requires Base(s) && Enabled(s, step) && step.Disarm?
    ensures !Holds(Next(policy, s, step), step.i)
  {
    hide CancelRequested, Trim;
  }

  /** A disarm that removes the entry of another consumer that still streams uncancelled. */
  ghost predicate Steals(s: State, step: Step) {
    && step.Disarm? && step.i < |s.consumers|
    && var key := s.consumers[step.i].key;
    && key in s.registry.entries
    && s.registry.entries[key] != step.i
    && LiveUncancelled(s, s.registry.entries[key])
  }

  /** Nobody comes back to life, and no flag clears. */
  lemma LiveBefore(policy: Policy, s: State, step: Step, i: nat)
    requires Base(s) && Enabled(s, step) && i < |s.consumers| && LiveUncancelled(Next(policy, s, step), i)
    ensures LiveUncancelled(s, i)
  {
    hide CancelRequested, Armed, Disarmed, Trim, Holds;
    FlagOnlyThroughEntry(policy, s, step, i);
  }

  /** A disarm of consumer `i`'s bucket by another consumer, with nothing to stop it. */
  ghost predicate TakesEntry(policy: Policy, s: State, step: Step, i: nat)
    requires i < |s.consumers|
  {
    && policy == ByKey && step.Disarm? && step.i < |s.consumers| && step.i != i
    && s.consumers[step.i].key == s.consumers[i].key
  }

  lemma HoldsAfter(policy: Policy, s: State, step: Step, i: nat)
    requires Enabled(s, step) && Holds(s, i) && LiveUncancelled(Next(policy, s, step), i)
    ensures Holds(Next(policy, s, step), i) <==> !TakesEntry(policy, s, step, i)
  {
    hide CancelRequested, Trim;
  }

  lemma ArmedHolds(policy: Policy, s: State, step: Step, i: nat)
    requires Enabled(s, step) && |s.consumers| <= i < |Next(policy, s, step).consumers|
    ensures Holds(Next(policy, s, step), i)
  {
    hide CancelRequested, Trim;
  }

  lemma VictimLivesOn(s: State, step: Step)
    requires Base(s) && Enabled(s, step) && Steals(s, step)
    ensures var victim := s.registry.entries[s.consumers[step.i].key];
            LiveUncancelled(Next(ByKey, s, step), victim) && !Holds(Next(ByKey, s, step), victim)
  {
  }

  /** Exact per-step condition: only a stealing disarm breaks the promise, and it always does. */
  lemma ReachableStepIff(s: State, step: Step)
    requires Base(s) && Reachable(s) && Enabled(s, step)
    ensures Reachable(Next(ByKey, s, step)) <==> !Steals(s, step)
  {
    hide Base, Enabled, Next;
    var s' := Next(ByKey, s, step);
    if Steals(s, step) {
      VictimLivesOn(s, step);
    } else {
      forall i: nat | LiveUncancelled(s', i) ensures Holds(s', i) {
        if i < |s.consumers| {
          LiveBefore(ByKey, s, step, i);
          HoldsAfter(ByKey, s, step, i);
        } else {
          ArmedHolds(ByKey, s, step, i);
        }
      }
    }
  }

  ghost predicate ReachableThroughout(policy: Policy, s: State, steps: seq<Step>)
    requires IsRun(policy, s, steps)
    decreases |steps|
  {
    Reachable(s) && (steps != [] ==> ReachableThroughout(policy, Next(policy, s, steps[0]), steps[1..]))
  }

  ghost predicate NeverSteals(s: State, steps: seq<Step>)
    requires IsRun(ByKey, s, steps)
    decreases |steps|
  {
    steps != [] ==> !Steals(s, steps[0]) && NeverSteals(Next(ByKey, s, steps[0]), steps[1..])
  }

  /** Over whole runs of the code as written, the promise holds throughout exactly when no disarm
      steals a successor's entry. */
  lemma {:induction false} ReachableRunIff(s: State, steps: seq<Step>)
    requires IsRun(ByKey, s, steps) && Base(s) && Reachable(s)
    ensures ReachableThroughout(ByKey, s, steps) <==> NeverSteals(s, steps)
    decreases |steps|
  {
    if steps != [] {
      var s' := Next(ByKey, s, steps[0]);
      BaseStep(ByKey, s, steps[0]);
      ReachableStepIff(s, steps[0]);
      if Reachable(s') {
        ReachableRunIff(s', steps[1..]);
      }
    }
  }

  lemma IdentityStepKeepsReachable(s: State, step: Step)
    requires Base(s) && Reachable(s) && Enabled(s, step)
    ensures Reachable(Next(ByIdentity, s, step))
  {
    hide Base, Enabled, Next;
    var s' := Next(ByIdentity, s, step);
    forall i: nat | LiveUncancelled(s', i) ensures Holds(s', i) {
      if i < |s.consumers| {
        LiveBefore(ByIdentity, s, step, i);
        HoldsAfter(ByIdentity, s, step, i);
      } else {
        ArmedHolds(ByIdentity, s, step, i);
      }
    }
  }

  /** Comparing flag identity before removing would make the promise unconditional. */
  lemma {:induction false} IdentityCheckKeepsReachable(s: State, steps: seq<Step>)
    requires IsRun(ByIdentity, s, steps) && Base(s) && Reachable(s)
    ensures ReachableThroughout(ByIdentity, s, steps)
    decreases |steps|
  {
    hide Base, Reachable, Enabled, Next;
    if steps != [] {
      BaseStep(ByIdentity, s, steps[0]);
      IdentityStepKeepsReachable(s, steps[0]);
      IdentityCheckKeepsReachable(Next(ByIdentity, s, steps[0]), steps[1..]);
    }
  }

  /** What the promise buys: one streaming consumer per bucket. */
  lemma OneConsumerPerKey(s: State, i: nat, j: nat)
    requires Reachable(s) && LiveUncancelled(s, i) && LiveUncancelled(s, j)
    requires s.consumers[i].key == s.consumers[j].key
    ensures i == j
  {
    assert Holds(s, i) && Holds(s, j);
  }

  /** ... and a cancel request reaches every consumer it names: the whole window when the thread id is
      missing or blank, else every consumer armed from the same thread id, however it was padded. */
  lemma CancelReaches(policy: Policy, s: State, window: string, threadId: Option<string>, path: string, i: nat)
    requires Base(s) && Reachable(s) && Live(s, i) && s.consumers[i].key.window == window
    requires threadId.None? || Trim(threadId.value) == ""
             || s.consumers[i].key.thread == ThreadBucket(threadId, path)
    ensures Next(policy, s, Cancel(window, threadId)).registry.flags[i]
  {
    hide CancelRequested, Trim;
    CancelChangesPointedFlags(s.registry, window, threadId, i);
    if !s.registry.flags[i] {
      assert Holds(s, i);
      CancelSetsEntry(s.registry, window, threadId, s.consumers[i].key);
    }
  }

  lemma {:induction false} BaseAlong(policy: Policy, s: State, steps: seq<Step>)
    requires IsRun(policy, s, steps) && Base(s)
    ensures Base(Final(policy, s, steps))
    decreases |steps|
  {
    if steps != [] {
      BaseStep(policy, s, steps[0]);
      BaseAlong(policy, Next(policy, s, steps[0]), steps[1..]);
    }
  }

  /** Once the registry has lost a flag, no step of any continuation changes it. */
  lemma {:induction false} LostFlagIsFrozen(policy: Policy, s: State, steps: seq<Step>, i: nat)
    requires IsRun(policy, s, steps) && Base(s) && i < |s.consumers| && !Holds(s, i)
    ensures i < |Final(policy, s, steps).consumers|
    ensures !Holds(Final(policy, s, steps), i)
    ensures Final(policy, s, steps).registry.flags[i] == s.registry.flags[i]
    decreases |steps|
  {
    if steps != [] {
      FlagOnlyThroughEntry(policy, s, steps[0], i);
      BaseStep(policy, s, steps[0]);
      LostFlagIsFrozen(policy, Next(policy, s, steps[0]), steps[1..], i);
    }
  }

  /** The price of a steal: the successor can never be cancelled again, by any request or re-arm. */
  lemma StolenConsumerIsUncancellable(s: State, step: Step, steps: seq<Step>)
    requires Base(s) && Enabled(s, step) && Steals(s, step) && IsRun(ByKey, Next(ByKey, s, step), steps)
    ensures var victim := s.registry.entries[s.consumers[step.i].key];
            var s' := Final(ByKey, Next(ByKey, s, step), steps);
            victim < |s'.consumers| && !s'.registry.flags[victim]
  {
    var victim := s.registry.entries[s.consumers[step.i].key];
    BaseStep(ByKey, s, step);
    LostFlagIsFrozen(ByKey, Next(ByKey, s, step), steps, victim);
  }

  /** The chunks a consumer has emitted, and the one it awaits. */
  ghost function Owed(s: State, i: nat): nat
    requires i < |s.consumers|
  {
    s.consumers[i].chunks + if At(s, i, Receiving) then 1 else 0
  }

  lemma OwesNoMore(policy: Policy, s: State, step: Step, i: nat)
    requires Enabled(s, step) && i < |s.consumers| && s.registry.flags[i]
    ensures i < |Next(policy, s, step).consumers| && Owed(Next(policy, s, step), i) <= Owed(s, i)
  {
    hide CancelRequested, Armed, Disarmed, Trim, Holds;
  }

  lemma CancelledStep(policy: Policy, s: State, step: Step, i: nat)
    requires Base(s) && Enabled(s, step) && i < |s.consumers| && s.registry.flags[i]
    ensures var s' := Next(policy, s, step);
            i < |s'.consumers| && s'.registry.flags[i] && Owed(s', i) <= Owed(s, i)
  {
    hide Base, Enabled, Next, Owed;
    OwesNoMore(policy, s, step, i);
    FlagOnlyThroughEntry(policy, s, step, i);
  }

  /** Flags never clear, and a cancelled consumer emits at most the chunk it was already awaiting and
      never `events-done`, in every run and under either disarm. */
  lemma {:induction false} CancelledConsumerStops(policy: Policy, s: State, steps: seq<Step>, i: nat)
    requires IsRun(policy, s, steps) && Base(s) && i < |s.consumers| && s.registry.flags[i]
    ensures var s' := Final(policy, s, steps);
            && i < |s'.consumers| && s'.registry.flags[i]
            && !s'.consumers[i].done
            && Owed(s', i) <= Owed(s, i)
    decreases |steps|
  {
    hide Enabled, Next, Owed;
    if steps != [] {
      CancelledStep(policy, s, steps[0], i);
      BaseStep(policy, s, steps[0]);
      CancelledConsumerStops(policy, Next(policy, s, steps[0]), steps[1..], i);
    }
  }

  /** `events-done` is truthful although the last load and the emission are separate steps: no cancel
      can land between them or later, because the disarm took the flag out of reach. */
  lemma DoneMeansNeverCancelled(policy: Policy, before: seq<Step>, after: seq<Step>, i: nat)
    requires IsRun(policy, START, before) && IsRun(policy, Final(policy, START, before), after)
    requires i < |Final(policy, START, before).consumers|
    requires At(Final(policy, START, before), i, Completing) || Final(policy, START, before).consumers[i].done
    ensures i < |Final(policy, Final(policy, START, before), after).consumers|
    ensures !Final(policy, Final(policy, START, before), after).registry.flags[i]
  {
    BaseAlong(policy, START, before);
    LostFlagIsFrozen(policy, Final(policy, START, before), after, i);
  }

  // ---- What every consumer does ----

  /** The consumer's side of a run in which nobody cancels it: `n` chunks, the end of the stream, and its leave. */
  ghost function Chunks(i: nat, n: nat): seq<Step> {
    if n == 0 then [] else [Poll(i)] + ([Chunk(i)] + Chunks(i, n - 1))
  }

  ghost function Leave(i: nat): seq<Step> {
    [Poll(i)] + ([StreamEnd(i)] + Finish(i))
  }

  ghost function Finish(i: nat): seq<Step> {
    [Disarm(i)] + ([FinalCheck(i)] + ([EmitDone(i)] + []))
  }

  ghost function With(s: State, i: nat, pc: Pc, chunks: nat, done: bool): State
    requires i < |s.consumers|
  {
    s.(consumers := s.consumers[i := Consumer(s.consumers[i].key, pc, chunks, done)])
  }

  lemma NothingPut(s: State, i: nat)
    requires i < |s.consumers|
    ensures var c := s.consumers[i];
            With(s, i, c.pc, c.chunks, c.done) == s
  {
    assert s.consumers[i := s.consumers[i]] == s.consumers;
  }

  lemma LastPutCounts(s: State, i: nat, pc: Pc, chunks: nat, next: Pc, more: nat, done: bool)
    requires i < |s.consumers|
    ensures var s' := With(s, i, pc, chunks, done);
            && s'.registry == s.registry && |s'.consumers| == |s.consumers|
            && At(s', i, pc) && s'.consumers[i].chunks == chunks && s'.consumers[i].done == done
            && With(s', i, next, more, done) == With(s, i, next, more, done)
  {
  }

  /** One turn of the loop: a clear flag lets the consumer receive, and the chunk adds exactly one. */
  lemma LoopTurn(policy: Policy, s: State, i: nat)
    requires At(s, i, Polling)
    ensures Enabled(s, Poll(i))
    ensures var c := s.consumers[i];
            && (s.registry.flags[i] ==> Next(policy, s, Poll(i)) == With(s, i, Leaving, c.chunks, c.done))
            && (!s.registry.flags[i] ==> Next(policy, s, Poll(i)) == With(s, i, Receiving, c.chunks, c.done))
  {
  }

  lemma ChunkAddsOne(policy: Policy, s: State, i: nat)
    requires At(s, i, Receiving)
    ensures Enabled(s, Chunk(i)) && Enabled(s, StreamEnd(i))
    ensures var c := s.consumers[i];
            && Next(policy, s, Chunk(i)) == With(s, i, Polling, c.chunks + 1, c.done)
            && Next(policy, s, StreamEnd(i)) == With(s, i, Leaving, c.chunks, c.done)
  {
  }

  /** An uncancelled consumer passes on as many chunks as the stream has, and changes nothing else. */
  lemma {:induction false} ChunksAreDelivered(policy: Policy, s: State, i: nat, n: nat)
    requires At(s, i, Polling) && !s.registry.flags[i]
    ensures IsRun(policy, s, Chunks(i, n))
    ensures var c := s.consumers[i];
            Final(policy, s, Chunks(i, n)) == With(s, i, Polling, c.chunks + n, c.done)
    decreases n
  {
    hide Enabled, Next, With;
    var c := s.consumers[i];
    if n == 0 {
      NothingPut(s, i);
    } else {
      var receiving := With(s, i, Receiving, c.chunks, c.done);
      var again := With(s, i, Polling, c.chunks + 1, c.done);
      LoopTurn(policy, s, i);
      LastPutCounts(s, i, Receiving, c.chunks, Polling, c.chunks + 1, c.done);
      ChunkAddsOne(policy, receiving, i);
      LastPutCounts(s, i, Polling, c.chunks + 1, Polling, c.chunks + n, c.done);
      ChunksAreDelivered(policy, again, i, n - 1);
      RunCons(policy, receiving, Chunk(i), Chunks(i, n - 1));
      RunCons(policy, s, Poll(i), [Chunk(i)] + Chunks(i, n - 1));
    }
  }

  /** A disarm touches no flag and sends the consumer to its last check. */
  lemma DisarmChecks(policy: Policy, s: State, i: nat)
    requires At(s, i, Leaving) || At(s, i, Failing)
    ensures Enabled(s, Disarm(i))
    ensures var s' := Next(policy, s, Disarm(i));
            && s'.registry.flags == s.registry.flags && i < |s'.consumers|
            && s'.consumers[i] == s.consumers[i].(pc := if At(s, i, Leaving) then Checking else Errored)
  {
  }

  /** The last check decides: a clear flag leads to `events-done`, unless it cannot be emitted, and a set one to a
      silent return. */
  lemma CheckDecides(policy: Policy, s: State, i: nat)
    requires At(s, i, Checking)
    ensures Enabled(s, FinalCheck(i))
    ensures s.registry.flags[i] ==> At(Next(policy, s, FinalCheck(i)), i, Returned)
    ensures !s.registry.flags[i] ==>
              && At(Next(policy, s, FinalCheck(i)), i, Completing)
              && Enabled(Next(policy, s, FinalCheck(i)), EmitDone(i))
              && var s' := Next(policy, Next(policy, s, FinalCheck(i)), EmitDone(i));
                 At(s', i, Returned) && s'.consumers[i].done && s'.consumers[i].chunks == s.consumers[i].chunks
    ensures !s.registry.flags[i] ==>
              && Enabled(Next(policy, s, FinalCheck(i)), DoneLost(i))
              && var s' := Next(policy, Next(policy, s, FinalCheck(i)), DoneLost(i));
                 At(s', i, Aborted) && s'.consumers[i].done == s.consumers[i].done
  {
  }

  /** Whoever leaves its loop with a clear flag can always go on to emit `events-done`. */
  lemma UncancelledFinishes(policy: Policy, s: State, i: nat)
    requires At(s, i, Leaving) && !s.registry.flags[i]
    ensures IsRun(policy, s, Finish(i))
    ensures var s' := Final(policy, s, Finish(i));
            At(s', i, Returned) && s'.consumers[i].done && s'.consumers[i].chunks == s.consumers[i].chunks
  {
    hide Enabled, Next;
    DisarmChecks(policy, s, i);
    var checking := Next(policy, s, Disarm(i));
    CheckDecides(policy, checking, i);
    var completing := Next(policy, checking, FinalCheck(i));
    RunCons(policy, completing, EmitDone(i), []);
    RunCons(policy, checking, FinalCheck(i), [EmitDone(i)] + []);
    RunCons(policy, s, Disarm(i), [FinalCheck(i)] + ([EmitDone(i)] + []));
  }

  /** A consumer that nobody cancels passes on every chunk of its stream, whatever its length, and ends with
      `events-done`. */
  lemma UncancelledStreamCompletes(policy: Policy, s: State, i: nat, n: nat)
    requires At(s, i, Polling) && !s.registry.flags[i]
    ensures IsRun(policy, s, Chunks(i, n)) && IsRun(policy, Final(policy, s, Chunks(i, n)), Leave(i))
    ensures var s' := Final(policy, Final(policy, s, Chunks(i, n)), Leave(i));
            At(s', i, Returned) && s'.consumers[i].done && s'.consumers[i].chunks == s.consumers[i].chunks + n
  {
    hide Enabled, Next, IsRun, Final, Finish;
    ChunksAreDelivered(policy, s, i, n);
    var delivered := Final(policy, s, Chunks(i, n));
    LoopTurn(policy, delivered, i);
    var receiving := Next(policy, delivered, Poll(i));
    ChunkAddsOne(policy, receiving, i);
    var leaving := Next(policy, receiving, StreamEnd(i));
    UncancelledFinishes(policy, leaving, i);
    RunCons(policy, receiving, StreamEnd(i), Finish(i));
    RunCons(policy, delivered, Poll(i), [StreamEnd(i)] + Finish(i));
  }

  /** A stream error ends the call, out of the registry's reach and without `events-done`; a chunk that could not be
      emitted ends it with its entry still there. */
  lemma ErrorsEndTheCall(policy: Policy, s: State, i: nat)
    requires At(s, i, Receiving)
    ensures Enabled(s, StreamError(i)) && Enabled(Next(policy, s, StreamError(i)), Disarm(i))
    ensures var s' := Next(policy, Next(policy, s, StreamError(i)), Disarm(i));
            At(s', i, Errored) && s'.consumers[i].done == s.consumers[i].done && !Holds(s', i)
    ensures Enabled(s, ChunkLost(i))
    ensures var s' := Next(policy, s, ChunkLost(i));
            At(s', i, Aborted) && s'.registry == s.registry && s'.consumers[i].done == s.consumers[i].done
  {
  }

  /** Every call that is over, and not by an error, knows why it was silent. */
  ghost predicate SilentOnlyIfCancelled(s: State) {
    forall i :: 0 <= i < |s.consumers| && s.consumers[i].pc == Returned && !s.consumers[i].done ==> s.registry.flags[i]
  }

  lemma SilentStep(policy: Policy, s: State, step: Step)
    requires Base(s) && SilentOnlyIfCancelled(s) && Enabled(s, step)
    ensures SilentOnlyIfCancelled(Next(policy, s, step))
  {
    hide Base, Enabled, Next;
    var s' := Next(policy, s, step);
    forall i: nat | i < |s'.consumers| && s'.consumers[i].pc == Returned && !s'.consumers[i].done
      ensures s'.registry.flags[i]
    {
      SilenceBegins(policy, s, step, i);
      FlagOnlyThroughEntry(policy, s, step, i);
    }
  }

  lemma SilenceBegins(policy: Policy, s: State, step: Step, i: nat)
    requires Enabled(s, step)
    requires At(Next(policy, s, step), i, Returned) && !Next(policy, s, step).consumers[i].done
    ensures i < |s.consumers| && (s.registry.flags[i] || (At(s, i, Returned) && !s.consumers[i].done))
  {
    hide CancelRequested, Armed, Disarmed, Trim, Holds;
  }

  lemma {:induction false} SilentAlong(policy: Policy, s: State, steps: seq<Step>)
    requires IsRun(policy, s, steps) && Base(s) && SilentOnlyIfCancelled(s)
    ensures Base(Final(policy, s, steps)) && SilentOnlyIfCancelled(Final(policy, s, steps))
    decreases |steps|
  {
    hide Base, SilentOnlyIfCancelled, Enabled, Next;
    if steps != [] {
      BaseStep(policy, s, steps[0]);
      SilentStep(policy, s, steps[0]);
      SilentAlong(policy, Next(policy, s, steps[0]), steps[1..]);
    }
  }

  /** Exact, over every run: a call that is over, and not by an error, emitted `events-done` if and only if its flag
      was never set. */
  lemma DoneIffNeverCancelled(policy: Policy, steps: seq<Step>, i: nat)
    requires IsRun(policy, START, steps) && At(Final(policy, START, steps), i, Returned)
    ensures Final(policy, START, steps).consumers[i].done <==> !Final(policy, START, steps).registry.flags[i]
  {
    SilentAlong(policy, START, steps);
  }

  /** Arming, cancelling or disarming one bucket touches no other bucket's flag or entry. */
  lemma BucketsAreIsolated(policy: Policy, s: State, step: Step, i: nat)
    requires Base(s) && Enabled(s, step) && i < |s.consumers|
    requires match step
             case Arm(key) => s.consumers[i].key != key
             case Disarm(j) => s.consumers[i].key != s.consumers[j].key
             case Cancel(window, threadId) =>
               s.consumers[i].key.window != window
               || (threadId.Some? && Trim(threadId.value) != "" && s.consumers[i].key.thread != Trim(threadId.value))
             case _ => true
    ensures Next(policy, s, step).registry.flags[i] == s.registry.flags[i]
    ensures Holds(Next(policy, s, step), i) == Holds(s, i)
  {
    hide CancelRequested, Armed, Disarmed, Trim;
    match step
    case Cancel(window, threadId) => CancelIsolated(s, window, threadId, i);
    case Arm(key) => ArmIsolated(s, key, i);
    case Disarm(j) => DisarmIsolated(s, s.consumers[j].key, i);
    case _ =>
  }

  lemma ArmIsolated(s: State, key: Key, i: nat)
    requires Base(s) && i < |s.consumers| && s.consumers[i].key != key
    ensures var r := Armed(s.registry, key);
            var own := s.consumers[i].key;
            && i < |r.flags| && r.flags[i] == s.registry.flags[i]
            && (own in r.entries <==> own in s.registry.entries)
            && (own in r.entries ==> r.entries[own] == s.registry.entries[own])
  {
  }

  lemma DisarmIsolated(s: State, key: Key, i: nat)
    requires i < |s.consumers| && s.consumers[i].key != key
    ensures var r := Disarmed(s.registry, key);
            var own := s.consumers[i].key;
            && r.flags == s.registry.flags
            && (own in r.entries <==> own in s.registry.entries)
            && (own in r.entries ==> r.entries[own] == s.registry.entries[own])
  {
  }

  lemma CancelIsolated(s: State, window: string, threadId: Option<string>, i: nat)
    requires Base(s) && i < |s.consumers|
    requires s.consumers[i].key.window != window
             || (threadId.Some? && Trim(threadId.value) != "" && s.consumers[i].key.thread != Trim(threadId.value))
    ensures CancelRequested(s.registry, window, threadId).flags[i] == s.registry.flags[i]
  {
    hide Trim;
    if PointedFrom(s.registry, window, i) {
      var k :| k in s.registry.entries && k.window == window && s.registry.entries[k] == i;
      assert s.consumers[i].key == k;
    }
  }

  /** A request waits until it is answered or fails, and a failed one arms nothing. */
  lemma RequestsWait(policy: Policy, s: State, key: Key)
    ensures Next(policy, s, Request(key)) == s.(requests := s.requests[key := s.requests[key] + 1])
    ensures Enabled(s, RequestFailed(key)) <==> key in s.requests
    ensures Enabled(s, Arm(key)) <==> key in s.requests
    ensures key in s.requests ==>
              && Next(policy, s, RequestFailed(key)) == s.(requests := s.requests[key := s.requests[key] - 1])
              && Next(policy, s, Arm(key)).requests == s.requests[key := s.requests[key] - 1]
  {
  }

  /** A cancel that lands while the request is still under way is lost: whatever it names, the stream starts
      uncancelled as soon as the response is there. */
  lemma CancelDuringRequestIsLost(policy: Policy, s: State, window: string, threadId: Option<string>, key: Key)
    requires key in s.requests
    ensures var cancelled := Next(policy, s, Cancel(window, threadId));
            && Enabled(cancelled, Arm(key))
            && var armed := Next(policy, cancelled, Arm(key));
            LiveUncancelled(armed, |s.consumers|) && armed.consumers[|s.consumers|].key == key
  {
    hide CancelRequested, Trim;
  }

  /** Three calls of one bucket under way. */
  ghost function Asked(k: Key): State {
    System(Registry(map[], []), [], multiset{k, k, k})
  }

  ghost function ArmedOnce(k: Key): State {
    System(Registry(map[k := 0], [false]), [Consumer(k, Polling, 0, false)], multiset{k, k})
  }

  ghost function ArmedTwice(k: Key): State {
    System(
      Registry(map[k := 1], [true, false]),
      [Consumer(k, Polling, 0, false), Consumer(k, Polling, 0, false)],
      multiset{k})
  }

  /** The first consumer has left and taken the second one's entry with it. */
  ghost function Robbed(k: Key): State {
    System(
      Registry(map[], [true, false]),
      [Consumer(k, Checking, 0, false), Consumer(k, Polling, 0, false)],
      multiset{k})
  }

  lemma ThreeRequests(k: Key)
    ensures Next(ByKey, Next(ByKey, Next(ByKey, START, Request(k)), Request(k)), Request(k)) == Asked(k)
  {
  }

  lemma FirstArm(k: Key)
    ensures Enabled(Asked(k), Arm(k)) && Next(ByKey, Asked(k), Arm(k)) == ArmedOnce(k)
  {
  }

  lemma SecondArm(k: Key)
    ensures Enabled(ArmedOnce(k), Arm(k)) && Next(ByKey, ArmedOnce(k), Arm(k)) == ArmedTwice(k)
  {
  }

  lemma LateDisarmStates(k: Key)
    ensures Enabled(ArmedTwice(k), Poll(0)) && Enabled(Next(ByKey, ArmedTwice(k), Poll(0)), Disarm(0))
    ensures Next(ByKey, Next(ByKey, ArmedTwice(k), Poll(0)), Disarm(0)) == Robbed(k)
  {
  }

  lemma StopMissesTheRobbed(k: Key)
    ensures Enabled(Robbed(k), Cancel(k.window, None))
    ensures Enabled(Next(ByKey, Robbed(k), Cancel(k.window, None)), Arm(k))
    ensures var s := Next(ByKey, Next(ByKey, Robbed(k), Cancel(k.window, None)), Arm(k));
            LiveUncancelled(s, 1) && LiveUncancelled(s, 2) && s.consumers[1].key == s.consumers[2].key
  {
    assert !PointedFrom(Robbed(k).registry, k.window, 1);
  }

  ghost function LateDisarm(k: Key): seq<Step> {
    [Request(k)] + ([Request(k)] + ([Request(k)] + ([Arm(k)] + ([Arm(k)] + LateDisarmTail(k)))))
  }

  ghost function LateDisarmTail(k: Key): seq<Step> {
    [Poll(0)] + ([Disarm(0)] + ([Cancel(k.window, None)] + ([Arm(k)] + [])))
  }

  /** The code as written breaks its promise: a superseded consumer that leaves late deletes its
      successor's entry. A window-wide stop then misses the successor, and a third consumer of the
      same bucket streams beside it. */
  lemma LateDisarmStealsEntry(k: Key)
    ensures IsRun(ByKey, START, LateDisarm(k))
    ensures var s := Final(ByKey, START, LateDisarm(k));
            && LiveUncancelled(s, 1) && LiveUncancelled(s, 2)
            && s.consumers[1].key == s.consumers[2].key
            && !Reachable(s)
  {
    hide Next, LiveUncancelled, Reachable, Asked, ArmedOnce, ArmedTwice, LateDisarmTail;
    ThreeRequests(k);
    FirstArm(k);
    SecondArm(k);
    LateDisarmTailRuns(k);
    var r1 := Next(ByKey, START, Request(k));
    var r2 := Next(ByKey, r1, Request(k));
    RunCons(ByKey, ArmedOnce(k), Arm(k), LateDisarmTail(k));
    RunCons(ByKey, Asked(k), Arm(k), [Arm(k)] + LateDisarmTail(k));
    RunCons(ByKey, r2, Request(k), [Arm(k)] + ([Arm(k)] + LateDisarmTail(k)));
    RunCons(ByKey, r1, Request(k), [Request(k)] + ([Arm(k)] + ([Arm(k)] + LateDisarmTail(k))));
    RunCons(ByKey, START, Request(k), [Request(k)] + ([Request(k)] + ([Arm(k)] + ([Arm(k)] + LateDisarmTail(k)))));
    var s := Final(ByKey, START, LateDisarm(k));
    if Reachable(s) {
      OneConsumerPerKey(s, 1, 2);
    }
  }

  lemma LateDisarmTailRuns(k: Key)
    ensures IsRun(ByKey, ArmedTwice(k), LateDisarmTail(k))
    ensures var s := Final(ByKey, ArmedTwice(k), LateDisarmTail(k));
            LiveUncancelled(s, 1) && LiveUncancelled(s, 2) && s.consumers[1].key == s.consumers[2].key
  {
    hide Enabled, Next, LiveUncancelled, ArmedTwice, Robbed;
    LateDisarmStates(k);
    StopMissesTheRobbed(k);
    var s5 := Next(ByKey, Robbed(k), Cancel(k.window, None));
    RunCons(ByKey, s5, Arm(k), []);
    RunCons(ByKey, Robbed(k), Cancel(k.window, None), [Arm(k)] + []);
    RunCons(ByKey, Next(ByKey, ArmedTwice(k), Poll(0)), Disarm(0), [Cancel(k.window, None)] + ([Arm(k)] + []));
    RunCons(ByKey, ArmedTwice(k), Poll(0), [Disarm(0)] + ([Cancel(k.window, None)] + ([Arm(k)] + [])));
  }

  lemma RunCons(policy: Policy, s: State, step: Step, rest: seq<Step>)
    requires Enabled(s, step) && IsRun(policy, Next(policy, s, step), rest)
    ensures IsRun(policy, s, [step] + rest)
    ensures Final(policy, s, [step] + rest) == Final(policy, Next(policy, s, step), rest)
  {
    assert ([step] + rest)[1..] == rest;
  }
}
