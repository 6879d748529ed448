/** The terminal manager's session map (crates/desktop/src/terminal.rs). */
module TerminalSessions {
  import opened Text

  const MAX_SESSIONS_PER_WINDOW := 4
  const MAX_SESSIONS_GLOBAL := 16
  const GLOBAL_CAP := "at most 16 terminals may be open"
  const WINDOW_CAP := "at most 4 terminals may be open in this window"

  /** Session id to the label of the window that owns it; the PTY handles are foreign objects. */
  type Sessions = map<string, string>

  function Owned(sessions: Sessions, window: string): set<string> {
    set id | id in sessions && sessions[id] == window
  }

  predicate Admits(sessions: Sessions, window: string) {
    |sessions| < MAX_SESSIONS_GLOBAL && |Owned(sessions, window)| < MAX_SESSIONS_PER_WINDOW
  }

  function Inserted(sessions: Sessions, id: string, window: string): Sessions {
    sessions[id := window]
  }

  function Removed(sessions: Sessions, id: string): Sessions {
    sessions - {id}
  }

  ghost predicate WithinCaps(sessions: Sessions) {
    |sessions| <= MAX_SESSIONS_GLOBAL && forall window :: |Owned(sessions, window)| <= MAX_SESSIONS_PER_WINDOW
  }

  lemma SubsetSize<T>(small: set<T>, large: set<T>)
    requires small <= large
    ensures |small| <= |large|
  {
    if small != {} {
      var x :| x in small;
      SubsetSize(small - {x}, large - {x});
    }
  }

  lemma InsertKeepsCaps(sessions: Sessions, id: string, window: string)
    requires WithinCaps(sessions) && Admits(sessions, window) && id !in sessions
    ensures WithinCaps(Inserted(sessions, id, window))
  {
    hide Owned;
    var after := sessions[id := window];
    assert after.Keys == sessions.Keys + {id};
    forall w ensures |Owned(after, w)| <= MAX_SESSIONS_PER_WINDOW {
      OwnedAfterInsert(sessions, id, window, w);
    }
  }

  lemma OwnedAfterInsert(sessions: Sessions, id: string, window: string, w: string)
    requires id !in sessions
    ensures Owned(sessions[id := window], w) == Owned(sessions, w) + if w == window then {id} else {}
  {
  }

  lemma RemoveKeepsCaps(sessions: Sessions, gone: set<string>)
    requires WithinCaps(sessions)
    ensures WithinCaps(sessions - gone)
  {
    SubsetSize((sessions - gone).Keys, sessions.Keys);
    forall w ensures |Owned(sessions - gone, w)| <= MAX_SESSIONS_PER_WINDOW {
      SubsetSize(Owned(sessions - gone, w), Owned(sessions, w));
    }
  }

  lemma WindowRemovalIsolates(sessions: Sessions, window: string)
    ensures Owned(sessions - Owned(sessions, window), window) == {}
    ensures forall other :: other != window ==>
      Owned(sessions - Owned(sessions, window), other) == Owned(sessions, other)
  {
  }

  class TerminalManager {
    var sessions: Sessions

    constructor ()
      ensures sessions == map[] && WithinCaps(sessions)
    {
      sessions := map[];
    }

    /** `spawn_terminal`, under the manager's lock; `launch` is what opening the PTY and starting the shell gave.
        The global cap is looked at first. */
    method SpawnTerminal(id: string, window: string, launch: Result<()>) returns (r: Result<string>)
      requires id !in sessions
      modifies this
      ensures r.Ok? <==> old(|sessions|) < 16 && old(|Owned(sessions, window)|) < 4 && launch.Ok?
      ensures r.Ok? ==> r.value == id && sessions == Inserted(old(sessions), id, window)
      ensures r.Err? ==> sessions == old(sessions)
      ensures old(|sessions|) >= MAX_SESSIONS_GLOBAL ==> r == Err(GLOBAL_CAP)
      ensures old(|sessions|) < MAX_SESSIONS_GLOBAL && !old(Admits(sessions, window)) ==> r == Err(WINDOW_CAP)
      ensures old(Admits(sessions, window)) && launch.Err? ==> r == Err(launch.message)
      ensures old(WithinCaps(sessions)) ==> WithinCaps(sessions)
    {
      if |sessions| >= MAX_SESSIONS_GLOBAL {
        return Err(GLOBAL_CAP);
      }
      var perWindow := |Owned(sessions, window)|;
      if perWindow >= MAX_SESSIONS_PER_WINDOW {
        return Err(WINDOW_CAP);
      }
      if launch.Err? {
        return Err(launch.message);
      }
      if WithinCaps(sessions) {
        InsertKeepsCaps(sessions, id, window);
      }
      sessions := Inserted(sessions, id, window);
      return Ok(id);
    }

    /** `kill_terminal`, which never fails; `killed` are the children it goes on to kill. */
    method KillTerminal(id: string) returns (killed: set<string>)
      modifies this
      ensures sessions == Removed(old(sessions), id)
      ensures killed == {id} * old(sessions.Keys)
    {
      killed := {};
      if id in sessions {
        sessions := Removed(sessions, id);
        killed := {id};
      }
    }

    /** `kill_all_for_window`: exactly the window's sessions go, and exactly their children are killed. */
    method KillAllForWindow(window: string) returns (killed: set<string>)
      modifies this
      ensures sessions == old(sessions) - old(Owned(sessions, window))
      ensures killed == old(Owned(sessions, window))
    {
      var ids := Owned(sessions, window);
      killed := {};
      while ids != {}
        invariant ids + killed == old(Owned(sessions, window)) && ids !! killed
        invariant sessions == old(sessions) - killed
        decreases ids
      {
        var id :| id in ids;
        var one := KillTerminal(id);
        killed := killed + one;
        ids := ids - {id};
      }
    }

    /** The waiter thread's last step, once the child has exited. */
    method Forget(id: string)
      modifies this
      ensures sessions == Removed(old(sessions), id)
    {
      sessions := Removed(sessions, id);
    }
  }
}

/** Every interleaving of spawns, kills, window closes, child exits and waiter threads. */
module TerminalProtocol {
  import opened TerminalSessions

  /** A session's waiter thread.
      Starting: about to lock the child; Holding: inside `wait`, the child's lock held;
      Reaped:   the child is gone and its lock free, the manager's lock is next; Done: finished */
  datatype Waiter = Starting | Holding | Reaped | Done

  /** Who holds the manager's lock.
      Spawning: past the caps with its child started; Killing: between two ids of its list;
      Striking: session `id` removed, its child's lock next */
  datatype Manager =
    | Free
    | Spawning(id: string, window: string)
    | Killing(ids: seq<string>)
    | Striking(id: string, ids: seq<string>)

  /** `struck` are the children a command has sent a kill; a struck child still has to exit. `abandoned` are those
      whose spawn failed after the shell was started. */
  datatype State = State(
    sessions: Sessions, manager: Manager, waiters: map<string, Waiter>, running: set<string>, struck: set<string>,
    abandoned: set<string>)

  const START := State(map[], Free, map[], {}, {}, {})

  datatype Step =
    | Spawn(id: string, window: string)
    | AbandonSpawn
    | StartWaiter
    | Insert
    | KillTerminal(id: string)
    | CloseWindow(window: string, order: seq<string>)
    | Take
    | Strike
    | Release
    | LockChild(id: string)
    | Exit(id: string)
    | Reap(id: string)
    | Forget(id: string)

  predicate WaiterAt(s: State, id: string, waiter: Waiter) {
    id in s.waiters && s.waiters[id] == waiter
  }

  /** `held` says that a spawn keeps the manager's lock from the start of its waiter to its insert, as the code does;
      without that a waiter could get in between. */
  predicate Enabled(held: bool, s: State, step: Step) {
    match step
    case Spawn(id, window) =>
      s.manager == Free && id !in s.waiters && id !in s.abandoned && Admits(s.sessions, window)
    case AbandonSpawn => s.manager.Spawning? && s.manager.id !in s.waiters
    case StartWaiter => s.manager.Spawning? && s.manager.id !in s.waiters
    case Insert => s.manager.Spawning? && s.manager.id in s.waiters
    case KillTerminal(_) => s.manager == Free
    case CloseWindow(window, order) =>
      && s.manager == Free
      && (forall id <- order :: id in Owned(s.sessions, window))
      && (forall id <- Owned(s.sessions, window) :: id in order)
    case Take => s.manager.Killing? && s.manager.ids != []
    case Strike => s.manager.Striking? && !WaiterAt(s, s.manager.id, Holding)
    case Release => s.manager == Killing([])
    case LockChild(id) => WaiterAt(s, id, Starting)
    case Exit(id) => id in s.running
    case Reap(id) => WaiterAt(s, id, Holding) && id !in s.running
    case Forget(id) => WaiterAt(s, id, Reaped) && (s.manager == Free || (!held && s.manager.Spawning?))
  }

  function Next(held: bool, s: State, step: Step): State
    requires Enabled(held, s, step)
  {
    match step
    case Spawn(id, window) => s.(manager := Spawning(id, window), running := s.running + {id})
    case AbandonSpawn => s.(manager := Free, abandoned := s.abandoned + {s.manager.id})
    case StartWaiter => s.(waiters := s.waiters[s.manager.id := Starting])
    case Insert => s.(sessions := Inserted(s.sessions, s.manager.id, s.manager.window), manager := Free)
    case KillTerminal(id) => s.(manager := Killing([id]))
    case CloseWindow(_, order) => s.(manager := Killing(order))
    case Take =>
      var id, rest := s.manager.ids[0], s.manager.ids[1..];
      if id in s.sessions then s.(sessions := Removed(s.sessions, id), manager := Striking(id, rest))
      else s.(manager := Killing(rest))
    case Strike => s.(struck := s.struck + {s.manager.id}, manager := Killing(s.manager.ids))
    case Release => s.(manager := Free)
    case LockChild(id) => s.(waiters := s.waiters[id := Holding])
    case Exit(id) => s.(running := s.running - {id})
    case Reap(id) => s.(waiters := s.waiters[id := Reaped])
    case Forget(id) => s.(sessions := Removed(s.sessions, id), waiters := s.waiters[id := Done])
  }

  predicate IsRun(held: bool, s: State, steps: seq<Step>)
    decreases |steps|
  {
    steps != [] ==> Enabled(held, s, steps[0]) && IsRun(held, Next(held, s, steps[0]), steps[1..])
  }

  function Final(held: bool, s: State, steps: seq<Step>): State
    requires IsRun(held, s, steps)
    decreases |steps|
  {
    if steps == [] then s else Final(held, Next(held, s, steps[0]), steps[1..])
  }

  // ---- What every run keeps ----

  /** Every session still has a waiter that will remove it. */
  ghost predicate Watched(s: State) {
    forall id :: id in s.sessions ==> id in s.waiters && s.waiters[id] != Done
  }

  /** A running child belongs to a waiter that has not seen it exit, to a spawn that has not started one, or to a
      spawn that failed. */
  ghost predicate Accounted(s: State) {
    && (forall id :: id in s.running ==>
          || WaiterAt(s, id, Starting) || WaiterAt(s, id, Holding)
          || (s.manager.Spawning? && s.manager.id == id && id !in s.waiters)
          || id in s.abandoned)
    && (forall id :: id in s.abandoned ==> id !in s.waiters)
    && (s.manager.Striking? ==> s.manager.id in s.waiters)
    && (s.manager.Spawning? ==> s.manager.id !in s.abandoned)
  }

  ghost predicate SpawnReady(s: State) {
    s.manager.Spawning? ==>
      && Admits(s.sessions, s.manager.window)
      && s.manager.id !in s.sessions
      && !WaiterAt(s, s.manager.id, Done)
  }

  ghost predicate Sound(s: State) {
    WithinCaps(s.sessions) && Watched(s) && Accounted(s) && SpawnReady(s)
  }

  lemma CapsStep(s: State, step: Step)
    requires Sound(s) && Enabled(true, s, step)
    ensures WithinCaps(Next(true, s, step).sessions)
  {
    match step
    case Insert => InsertKeepsCaps(s.sessions, s.manager.id, s.manager.window);
    case Take => RemoveKeepsCaps(s.sessions, {s.manager.ids[0]});
    case Forget(id) => RemoveKeepsCaps(s.sessions, {id});
    case _ =>
  }

  lemma WatchedStep(s: State, step: Step)
    requires Sound(s) && Enabled(true, s, step)
    ensures Watched(Next(true, s, step))
  {
    hide WithinCaps, Admits, Accounted;
  }

  lemma AccountedStep(s: State, step: Step)
    requires Sound(s) && Enabled(true, s, step)
    ensures Accounted(Next(true, s, step))
  {
    hide WithinCaps, Admits;
  }

  lemma SpawnReadyStep(s: State, step: Step)
    requires Sound(s) && Enabled(true, s, step)
    ensures SpawnReady(Next(true, s, step))
  {
    hide WithinCaps, Admits, Accounted;
  }

  lemma SoundStep(s: State, step: Step)
    requires Sound(s) && Enabled(true, s, step)
    ensures Sound(Next(true, s, step))
  {
    hide WithinCaps, Admits, Watched, Accounted, SpawnReady, Enabled, Next;
    CapsStep(s, step);
    WatchedStep(s, step);
    AccountedStep(s, step);
    SpawnReadyStep(s, step);
  }

  lemma {:induction false} SoundRun(s: State, steps: seq<Step>)
    requires Sound(s) && IsRun(true, s, steps)
    ensures Sound(Final(true, s, steps))
    decreases |steps|
  {
    hide Sound, Enabled, Next;
    if steps != [] {
      SoundStep(s, steps[0]);
      SoundRun(Next(true, s, steps[0]), steps[1..]);
    }
  }

  /** In every run: at most 16 sessions, at most 4 for a window, and none whose waiter has finished. */
  lemma SessionsStayBounded(steps: seq<Step>)
    requires IsRun(true, START, steps)
    ensures var s := Final(true, START, steps);
      && |s.sessions| <= 16
      && (forall window :: |Owned(s.sessions, window)| <= 4)
      && (forall id :: id in s.sessions ==> id in s.waiters && s.waiters[id] != Done)
  {
    assert forall window :: Owned(START.sessions, window) == {};
    SoundRun(START, steps);
  }

  // ---- Why the lock is held across the insert ----

  /** Were the lock let go in between, a short-lived child could leave its session behind. */
  lemma UnlockedSpawnLeaksSession(id: string, window: string) returns (steps: seq<Step>)
    ensures IsRun(false, START, steps)
    ensures var s := Final(false, START, steps); Leaked(s, id, window) && s.manager == Free
  {
    hide Enabled, Next, Orphaned, Waited;
    UnlockedWait(id, window);
    ShortLivedChild(id, window);
    InsertAfterTheFact(id, window);
    var s1 := Next(false, START, Spawn(id, window));
    var s2 := Next(false, s1, StartWaiter);
    var s4 := Next(false, Waited(id, window), Exit(id));
    var s5 := Next(false, s4, Reap(id));
    steps := Cons(false, Orphaned(id, window), Insert, []);
    steps := Cons(false, s5, Forget(id), steps);
    steps := Cons(false, s4, Reap(id), steps);
    steps := Cons(false, Waited(id, window), Exit(id), steps);
    steps := Cons(false, s2, LockChild(id), steps);
    steps := Cons(false, s1, StartWaiter, steps);
    steps := Cons(false, START, Spawn(id, window), steps);
  }

  /** The waiter sits in `wait` before the spawn has inserted the session. */
  function Waited(id: string, window: string): State {
    State(map[], Spawning(id, window), map[id := Holding], {id}, {}, {})
  }

  /** The child and its waiter are through before the spawn has inserted the session. */
  function Orphaned(id: string, window: string): State {
    State(map[], Spawning(id, window), map[id := Done], {}, {}, {})
  }

  lemma UnlockedWait(id: string, window: string)
    ensures Enabled(false, START, Spawn(id, window))
    ensures var s1 := Next(false, START, Spawn(id, window));
      && Enabled(false, s1, StartWaiter)
      && Enabled(false, Next(false, s1, StartWaiter), LockChild(id))
      && Next(false, Next(false, s1, StartWaiter), LockChild(id)) == Waited(id, window)
  {
    assert Owned(START.sessions, window) == {};
  }

  lemma ShortLivedChild(id: string, window: string)
    ensures Enabled(false, Waited(id, window), Exit(id))
    ensures var s4 := Next(false, Waited(id, window), Exit(id));
      && Enabled(false, s4, Reap(id))
      && Enabled(false, Next(false, s4, Reap(id)), Forget(id))
      && Next(false, Next(false, s4, Reap(id)), Forget(id)) == Orphaned(id, window)
  {
  }

  lemma InsertAfterTheFact(id: string, window: string)
    ensures Enabled(false, Orphaned(id, window), Insert)
    ensures var s := Next(false, Orphaned(id, window), Insert); Leaked(s, id, window) && s.manager == Free
  {
  }

  lemma Cons(held: bool, s: State, step: Step, rest: seq<Step>) returns (steps: seq<Step>)
    requires Enabled(held, s, step) && IsRun(held, Next(held, s, step), rest)
    ensures IsRun(held, s, steps) && Final(held, s, steps) == Final(held, Next(held, s, step), rest)
  {
    hide Enabled, Next;
    steps := [step] + rest;
    assert steps[1..] == rest;
  }

  /** The lock's holder is on its way to session `id`. */
  predicate Heading(s: State, id: string) {
    match s.manager
    case Free => false
    case Spawning(spawned, _) => spawned == id
    case Killing(ids) => id in ids
    case Striking(_, ids) => id in ids
  }

  /** The command that would remove a session left behind: a kill that names it, or a close of its window. */
  predicate Names(step: Step, id: string, window: string) {
    step == KillTerminal(id) || (step.CloseWindow? && step.window == window)
  }

  ghost predicate Leaked(s: State, id: string, window: string) {
    id in s.sessions && s.sessions[id] == window && WaiterAt(s, id, Done) && !Heading(s, id)
  }

  lemma LeakedStep(held: bool, s: State, id: string, window: string, step: Step)
    requires Leaked(s, id, window) && Enabled(held, s, step) && !Names(step, id, window)
    ensures Leaked(Next(held, s, step), id, window)
  {
    hide Admits;
    if step == Take {
      var ids := s.manager.ids;
      assert ids == [ids[0]] + ids[1..];
    }
  }

  /** A session left behind that way takes up its place in every continuation, whatever else is killed or closed, as
      long as no command names it. */
  lemma {:induction false} LeakedSessionStays(held: bool, s: State, id: string, window: string, steps: seq<Step>)
    requires Leaked(s, id, window) && IsRun(held, s, steps)
    requires forall i :: 0 <= i < |steps| ==> !Names(steps[i], id, window)
    ensures Leaked(Final(held, s, steps), id, window)
    decreases |steps|
  {
    hide Leaked, Enabled, Next, Names;
    if steps != [] {
      LeakedStep(held, s, id, window, steps[0]);
      LeakedSessionStays(held, Next(held, s, steps[0]), id, window, steps[1..]);
    }
  }

  // ---- Kill and close ----

  ghost function Remaining(s: State): Sessions
    requires s.manager.Killing? || s.manager.Striking?
  {
    s.sessions - set id | id in s.manager.ids
  }

  lemma RemainingStep(s: State, step: Step)
    requires (s.manager.Killing? || s.manager.Striking?) && Enabled(true, s, step) && step != Release
    ensures var s' := Next(true, s, step);
      (s'.manager.Killing? || s'.manager.Striking?) && Remaining(s') == Remaining(s)
  {
    if step == Take {
      var ids := s.manager.ids;
      assert ids == [ids[0]] + ids[1..];
    }
  }

  lemma {:induction false} RemainingRun(s: State, steps: seq<Step>)
    requires (s.manager.Killing? || s.manager.Striking?) && IsRun(true, s, steps) && Release !in steps
    ensures var t := Final(true, s, steps);
      (t.manager.Killing? || t.manager.Striking?) && Remaining(t) == Remaining(s)
    decreases |steps|
  {
    hide Remaining, Enabled, Next;
    if steps != [] {
      RemainingStep(s, steps[0]);
      RemainingRun(Next(true, s, steps[0]), steps[1..]);
    }
  }

  lemma CloseBegins(s: State, window: string, order: seq<string>)
    requires Enabled(true, s, CloseWindow(window, order))
    ensures var begun := Next(true, s, CloseWindow(window, order));
      begun.manager.Killing? && Remaining(begun) == s.sessions - Owned(s.sessions, window)
  {
    assert (set id | id in order) == Owned(s.sessions, window);
  }

  lemma ReleaseEnds(s: State)
    requires Enabled(true, s, Release)
    ensures s.manager.Killing? && Remaining(s) == s.sessions
  {
  }

  /** When a window's close lets go of the lock, exactly that window's sessions are gone, whatever ran meanwhile. */
  lemma CloseRemovesExactlyItsWindow(s: State, window: string, order: seq<string>, begun: State, steps: seq<Step>)
    requires Enabled(true, s, CloseWindow(window, order)) && begun == Next(true, s, CloseWindow(window, order))
    requires IsRun(true, begun, steps) && Release !in steps && Enabled(true, Final(true, begun, steps), Release)
    ensures var t := Final(true, begun, steps);
      && t.sessions == s.sessions - Owned(s.sessions, window)
      && Owned(t.sessions, window) == {}
      && forall other :: other != window ==> Owned(t.sessions, other) == Owned(s.sessions, other)
  {
    hide Enabled, Next, Remaining, Owned;
    CloseBegins(s, window, order);
    RemainingRun(begun, steps);
    ReleaseEnds(Final(true, begun, steps));
    WindowRemovalIsolates(s.sessions, window);
  }

  // ---- The commands step by step ----

  /** A spawn that nothing goes wrong with: past the caps, then its waiter, then its session. */
  lemma SpawnCommand(s: State, id: string, window: string)
    requires Enabled(true, s, Spawn(id, window))
    ensures var begun := Next(true, s, Spawn(id, window));
      && Enabled(true, begun, StartWaiter)
      && Enabled(true, Next(true, begun, StartWaiter), Insert)
      && var done := Next(true, Next(true, begun, StartWaiter), Insert);
         done == s.(sessions := Inserted(s.sessions, id, window),
                    waiters := s.waiters[id := Starting], running := s.running + {id})
  {
  }

  /** A kill that meets no lock on its child: the session goes and its child is struck. */
  lemma KillCommand(s: State, id: string)
    requires s.manager == Free && id in s.sessions && !WaiterAt(s, id, Holding)
    ensures var taken := Next(true, Next(true, s, KillTerminal(id)), Take);
      && Enabled(true, taken, Strike)
      && var struck := Next(true, taken, Strike);
         && Enabled(true, struck, Release)
         && Next(true, struck, Release) == s.(sessions := Removed(s.sessions, id), struck := s.struck + {id})
  {
    hide Removed, Admits;
  }

  /** A kill of an unknown id changes nothing. */
  lemma KillOfUnknown(s: State, id: string)
    requires s.manager == Free && id !in s.sessions
    ensures var taken := Next(true, Next(true, s, KillTerminal(id)), Take);
      Enabled(true, taken, Release) && Next(true, taken, Release) == s && Removed(s.sessions, id) == s.sessions
  {
  }

  /** A spawn is let in exactly below both caps, under an id never used before, when nobody holds the manager. */
  lemma SpawnAdmittedIff(held: bool, s: State, id: string, window: string)
    ensures Enabled(held, s, Spawn(id, window)) <==>
              && s.manager == Free && id !in s.waiters && id !in s.abandoned
              && |s.sessions| < 16 && |Owned(s.sessions, window)| < 4
  {
    hide Owned;
  }

  /** A spawn that fails once its shell runs lets go of the manager, leaves no session, and leaves the shell running
      with nobody to wait for it. */
  lemma FailedSpawnLeavesShell(s: State, id: string, window: string)
    requires Enabled(true, s, Spawn(id, window))
    ensures var begun := Next(true, s, Spawn(id, window));
      && Enabled(true, begun, AbandonSpawn)
      && var failed := Next(true, begun, AbandonSpawn);
         && failed.manager == Free && failed.sessions == s.sessions
         && id in failed.running && id !in failed.waiters && !Enabled(true, failed, Spawn(id, window))
  {
    hide Admits;
  }

  /** A child that exits by itself takes its session with it. */
  lemma ExitRemovesSession(s: State, id: string)
    requires s.manager == Free && WaiterAt(s, id, Holding) && id in s.running
    ensures Enabled(true, s, Exit(id))
    ensures var exited := Next(true, s, Exit(id));
      && Enabled(true, exited, Reap(id))
      && Enabled(true, Next(true, exited, Reap(id)), Forget(id))
      && var done := Next(true, Next(true, exited, Reap(id)), Forget(id));
         done.sessions == s.sessions - {id} && done.manager == Free && done.struck == s.struck
  {
    hide Admits;
  }

  lemma TakeStrikes(s: State)
    requires s.manager.Killing? && s.manager.ids != [] && s.manager.ids[0] in s.sessions
    requires !WaiterAt(s, s.manager.ids[0], Holding)
    ensures Enabled(true, s, Take) && Enabled(true, Next(true, s, Take), Strike)
    ensures var id, rest := s.manager.ids[0], s.manager.ids[1..];
      Next(true, Next(true, s, Take), Strike)
      == s.(sessions := Removed(s.sessions, id), struck := s.struck + {id}, manager := Killing(rest))
  {
    hide Removed, Admits;
  }

  lemma TakeSkips(s: State)
    requires s.manager.Killing? && s.manager.ids != [] && s.manager.ids[0] !in s.sessions
    ensures Enabled(true, s, Take) && Next(true, s, Take) == s.(manager := Killing(s.manager.ids[1..]))
  {
    hide Removed, Admits;
  }

  predicate Unlocked(s: State, ids: seq<string>) {
    forall id <- ids :: id in s.sessions ==> !WaiterAt(s, id, Holding)
  }

  /** A kill or close that meets no lock on a child runs through its list: all its sessions go, and exactly their
      children are struck. */
  lemma {:induction false} CommandRunsThrough(s: State) returns (steps: seq<Step>)
    requires s.manager.Killing? && Unlocked(s, s.manager.ids)
    ensures IsRun(true, s, steps) && Final(true, s, steps).manager == Killing([])
    ensures Final(true, s, steps).sessions == s.sessions - set id | id in s.manager.ids
    ensures Final(true, s, steps).struck == s.struck + (set id | id in s.manager.ids) * s.sessions.Keys
    decreases |s.manager.ids|
  {
    hide Enabled, Next;
    var ids := s.manager.ids;
    if ids == [] {
      steps := [];
    } else {
      assert ids == [ids[0]] + ids[1..];
      if ids[0] in s.sessions {
        TakeStrikes(s);
        var taken := Next(true, s, Take);
        steps := CommandRunsThrough(Next(true, taken, Strike));
        steps := Cons(true, taken, Strike, steps);
      } else {
        TakeSkips(s);
        steps := CommandRunsThrough(Next(true, s, Take));
      }
      steps := Cons(true, s, Take, steps);
    }
  }

  // ---- What a kill can reach ----

  /** A kill that waits for a child's lock: the child runs and its waiter sits in `wait`. */
  predicate Stuck(s: State, id: string) {
    s.manager.Striking? && s.manager.id == id && WaiterAt(s, id, Holding) && id in s.running
  }

  /** Exact: a kill that has come to a running child's lock goes through if and only if the child's waiter has not
      taken that lock; otherwise it is stuck. */
  lemma StrikeReachesRunningIff(s: State)
    requires Sound(s) && s.manager.Striking? && s.manager.id in s.running
    ensures Enabled(true, s, Strike) <==> WaiterAt(s, s.manager.id, Starting)
    ensures !Enabled(true, s, Strike) <==> Stuck(s, s.manager.id)
  {
    hide WithinCaps, Admits;
    assert s.manager.id !in s.abandoned;
  }

  /** The same seen from the caller, before the kill: killing a live terminal strikes its child if and only if the
      waiter has not taken the child's lock yet; otherwise the session is gone and the kill is stuck. */
  lemma KillReachesRunningIff(s: State, id: string)
    requires Sound(s) && s.manager == Free && id in s.sessions && id in s.running
    ensures Enabled(true, s, KillTerminal(id)) && Enabled(true, Next(true, s, KillTerminal(id)), Take)
    ensures var taken := Next(true, Next(true, s, KillTerminal(id)), Take);
      && taken.sessions == Removed(s.sessions, id) && taken.struck == s.struck
      && (Enabled(true, taken, Strike) <==> WaiterAt(s, id, Starting))
      && (Enabled(true, taken, Strike) ==> id in Next(true, taken, Strike).struck)
      && (Stuck(taken, id) <==> WaiterAt(s, id, Holding))
  {
    hide WithinCaps, Admits;
    var asked := Next(true, s, KillTerminal(id));
    SoundStep(s, KillTerminal(id));
    SoundStep(asked, Take);
    StrikeReachesRunningIff(Next(true, asked, Take));
  }

  lemma StuckStep(s: State, id: string, step: Step)
    requires Stuck(s, id) && Enabled(true, s, step) && step != Exit(id)
    ensures var t := Next(true, s, step);
      Stuck(t, id) && t.manager == s.manager && t.sessions == s.sessions && t.struck == s.struck
  {
  }

  /** A stuck kill holds the manager's lock, with no kill sent and no other session touched, until the child exits on
      its own. */
  lemma {:induction false} KillWaitsForExit(s: State, id: string, steps: seq<Step>)
    requires Stuck(s, id) && IsRun(true, s, steps) && Exit(id) !in steps
    ensures var t := Final(true, s, steps);
      Stuck(t, id) && t.manager == s.manager && t.sessions == s.sessions && t.struck == s.struck
    decreases |steps|
  {
    hide Stuck, Enabled, Next;
    if steps != [] {
      StuckStep(s, id, steps[0]);
      KillWaitsForExit(Next(true, s, steps[0]), id, steps[1..]);
    }
  }

  /** It is only a wait and no deadlock: the child can always exit, and then its waiter lets go of the child's lock, the
      kill goes through and the command goes on. */
  lemma StuckKillGoesOn(s: State, id: string)
    requires Stuck(s, id)
    ensures Enabled(true, s, Exit(id))
    ensures var exited := Next(true, s, Exit(id));
      && Enabled(true, exited, Reap(id))
      && var reaped := Next(true, exited, Reap(id));
         && Enabled(true, reaped, Strike)
         && Next(true, reaped, Strike)
            == s.(manager := Killing(s.manager.ids), running := s.running - {id},
                  waiters := s.waiters[id := Reaped], struck := s.struck + {id})
  {
  }

  /** So killing a live terminal whose waiter sits in `wait` takes its session away and then blocks the manager in
      every continuation in which the child does not exit by itself. */
  lemma KillOfWaitedChildSticks(s: State, id: string, steps: seq<Step>)
    requires Sound(s) && s.manager == Free && id in s.sessions && id in s.running && WaiterAt(s, id, Holding)
    requires Enabled(true, s, KillTerminal(id)) && Enabled(true, Next(true, s, KillTerminal(id)), Take)
    requires IsRun(true, Next(true, Next(true, s, KillTerminal(id)), Take), steps) && Exit(id) !in steps
    ensures var t := Final(true, Next(true, Next(true, s, KillTerminal(id)), Take), steps);
      Stuck(t, id) && t.sessions == Removed(s.sessions, id) && t.struck == s.struck
  {
    hide Stuck, Sound, Enabled, Next;
    KillReachesRunningIff(s, id);
    KillWaitsForExit(Next(true, Next(true, s, KillTerminal(id)), Take), id, steps);
  }
}
