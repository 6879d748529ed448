/** The repo working set: a bounded, scored cache of paths (crates/core/src/working_set.rs).
    Candidates arrive already normalized and relativized; `None` is one that was rejected. */
module WorkingSets {
  import opened Text
  import opened Sorting

  const U32_MAX: nat := 0xFFFF_FFFF
  const U64_MAX: nat := 0xFFFF_FFFF_FFFF_FFFF

  datatype Source = UserMessage | ToolInput | ToolOutput | Rebuild

  datatype Entry = Entry(path: string, isDir: bool, onDisk: bool, touches: nat, lastTurn: nat, lastSource: Source)

  datatype Candidate = Candidate(path: string, onDisk: bool, isDir: bool)

  datatype SessionMessage = SessionMessage(fromUser: bool, candidates: seq<Option<Candidate>>)

  function ScoreEntry(entry: Entry, currentTurn: nat): int {
    var age := if currentTurn <= entry.lastTurn then 0 else currentTurn - entry.lastTurn;
    var recencyBonus :=
      if age == 0 then 6
      else if age == 1 then 4
      else if age == 2 then 3
      else if age <= 5 then 2
      else if age <= 10 then 1
      else 0;
    entry.touches * 4 + recencyBonus
  }

  /** How long ago the entry was touched. */
  function Age(entry: Entry, currentTurn: nat): nat {
    if currentTurn <= entry.lastTurn then 0 else currentTurn - entry.lastTurn
  }

  /** Ages that count the same: three to five turns, six to ten, and everything past ten. */
  predicate SameBracket(a: nat, b: nat) {
    a == b || (3 <= a <= 5 && 3 <= b <= 5) || (6 <= a <= 10 && 6 <= b <= 10) || (a > 10 && b > 10)
  }

  /** The later touched of two equally touched entries never scores lower, and scores higher unless their ages count
      the same. */
  lemma LaterScoresHigher(a: Entry, b: Entry, turn: nat)
    requires a.touches == b.touches && a.lastTurn >= b.lastTurn
    ensures ScoreEntry(a, turn) >= ScoreEntry(b, turn)
    ensures ScoreEntry(a, turn) > ScoreEntry(b, turn) <==> !SameBracket(Age(a, turn), Age(b, turn))
  {
  }

  /** One more touch is worth exactly four, and recency is worth six in the current turn, four in the next, nothing past
      ten turns, and never more or less. */
  lemma ScoreScale(entry: Entry, turn: nat)
    ensures ScoreEntry(entry.(touches := entry.touches + 1), turn) == ScoreEntry(entry, turn) + 4
    ensures var bonus := ScoreEntry(entry.(touches := 0), turn);
            && 0 <= bonus <= 6
            && (bonus == 6 <==> turn <= entry.lastTurn)
            && (bonus == 4 <==> turn == entry.lastTurn + 1)
            && (bonus == 0 <==> turn > entry.lastTurn + 10)
  {
  }

  /** Some hash iteration order: every key once. */
  ghost predicate Enumerates(order: seq<string>, keys: set<string>) {
    && (forall k :: k in order <==> k in keys)
    && (forall i, j :: 0 <= i < j < |order| ==> order[i] != order[j])
  }

  lemma {:induction false} EnumerationSize(order: seq<string>, keys: set<string>)
    requires Enumerates(order, keys)
    ensures |order| == |keys|
  {
    if order == [] {
      assert keys == {};
    } else {
      var n := |order| - 1;
      assert order[n] in order;
      assert forall i :: 0 <= i < n ==> order[..n][i] == order[i] && order[i] in order;
      EnumerationSize(order[..n], keys - {order[n]});
    }
  }

  /** What the set tracks is consistent: keys are paths, touches and turns are in range. */
  ghost predicate Coherent(entries: map<string, Entry>, turn: nat) {
    && turn <= U64_MAX
    && forall k :: k in entries ==>
         entries[k].path == k && 1 <= entries[k].touches <= U32_MAX && entries[k].lastTurn <= turn
  }

  ghost function Recorded(entries: map<string, Entry>, turn: nat, c: Candidate, source: Source): map<string, Entry> {
    if c.path in entries then
      var e := entries[c.path];
      entries[c.path := e.(onDisk := e.onDisk || c.onDisk, isDir := e.isDir || c.isDir,
                           touches := if e.touches >= U32_MAX then U32_MAX else e.touches + 1,
                           lastTurn := turn, lastSource := source)]
    else entries[c.path := Entry(c.path, c.isDir, c.onDisk, 1, turn, source)]
  }

  ghost function RecordedAll(
    entries: map<string, Entry>, turn: nat, candidates: seq<Option<Candidate>>, source: Source): map<string, Entry>
  {
    if candidates == [] then entries
    else
      var before := RecordedAll(entries, turn, candidates[..|candidates| - 1], source);
      var last := candidates[|candidates| - 1];
      if last.None? then before else Recorded(before, turn, last.value, source)
  }

  lemma {:induction false} RecordingIsCoherent(
    entries: map<string, Entry>, turn: nat, candidates: seq<Option<Candidate>>, source: Source)
    requires Coherent(entries, turn)
    ensures Coherent(RecordedAll(entries, turn, candidates, source), turn)
  {
    if candidates != [] {
      RecordingIsCoherent(entries, turn, candidates[..|candidates| - 1], source);
    }
  }

  /** How often `path` is among the candidates. */
  function Mentions(candidates: seq<Option<Candidate>>, path: string): nat {
    if candidates == [] then 0
    else
      var last := candidates[|candidates| - 1];
      Mentions(candidates[..|candidates| - 1], path) + if last.Some? && last.value.path == path then 1 else 0
  }

  predicate SeenOnDisk(candidates: seq<Option<Candidate>>, path: string) {
    exists i :: 0 <= i < |candidates|
      && candidates[i].Some? && candidates[i].value.path == path && candidates[i].value.onDisk
  }

  predicate SeenAsDir(candidates: seq<Option<Candidate>>, path: string) {
    exists i :: 0 <= i < |candidates|
      && candidates[i].Some? && candidates[i].value.path == path && candidates[i].value.isDir
  }

  function Touches(entries: map<string, Entry>, path: string): nat {
    if path in entries then entries[path].touches else 0
  }

  /** Recording counts: a path has as many touches as before plus one for each mention, up to the counter's end, and a
      mentioned path is of this turn and source; existence and kind are only ever added. An unmentioned path stays. */
  lemma {:induction false} RecordingCounts(
    entries: map<string, Entry>, turn: nat, candidates: seq<Option<Candidate>>, source: Source, path: string)
    requires Coherent(entries, turn)
    ensures var after := RecordedAll(entries, turn, candidates, source);
            var n := Mentions(candidates, path);
            && (path in after <==> path in entries || n > 0)
            && (n == 0 && path in entries ==> after[path] == entries[path])
            && (n > 0 ==>
                  && after[path].touches == (if Touches(entries, path) + n >= U32_MAX then U32_MAX
                                             else Touches(entries, path) + n)
                  && after[path].lastTurn == turn && after[path].lastSource == source && after[path].path == path
                  && (after[path].onDisk <==>
                      (path in entries && entries[path].onDisk) || SeenOnDisk(candidates, path))
                  && (after[path].isDir <==>
                      (path in entries && entries[path].isDir) || SeenAsDir(candidates, path)))
  {
    hide Coherent, SeenOnDisk, SeenAsDir;
    if candidates != [] {
      var n := |candidates| - 1;
      RecordingCounts(entries, turn, candidates[..n], source, path);
      CoherentTouches(entries, turn, path);
      SeenAppend(candidates, path);
      if Mentions(candidates[..n], path) == 0 {
        UnmentionedIsUnseen(candidates[..n], path);
      }
    }
  }

  lemma CoherentTouches(entries: map<string, Entry>, turn: nat, path: string)
    requires Coherent(entries, turn)
    ensures Touches(entries, path) <= U32_MAX && (path in entries ==> entries[path].path == path)
  {
  }

  lemma SeenAppend(candidates: seq<Option<Candidate>>, path: string)
    requires candidates != []
    ensures var n := |candidates| - 1;
            var last := candidates[n];
            && (SeenOnDisk(candidates, path) <==>
                SeenOnDisk(candidates[..n], path) || (last.Some? && last.value.path == path && last.value.onDisk))
            && (SeenAsDir(candidates, path) <==>
                SeenAsDir(candidates[..n], path) || (last.Some? && last.value.path == path && last.value.isDir))
  {
    var n := |candidates| - 1;
    assert forall i :: 0 <= i < n ==> candidates[..n][i] == candidates[i];
  }

  lemma {:induction false} UnmentionedIsUnseen(candidates: seq<Option<Candidate>>, path: string)
    requires Mentions(candidates, path) == 0
    ensures !SeenOnDisk(candidates, path) && !SeenAsDir(candidates, path)
  {
    if candidates != [] {
      UnmentionedIsUnseen(candidates[..|candidates| - 1], path);
      SeenAppend(candidates, path);
    }
  }

  /** A sound eviction: exactly the excess is gone, nothing else changed, and nothing that was evicted
      scores above anything that stayed. */
  ghost predicate SoundEviction(before: map<string, Entry>, after: map<string, Entry>, turn: nat, maxEntries: nat) {
    && after.Keys <= before.Keys
    && (forall k :: k in after ==> after[k] == before[k])
    && |after| == (if |before| <= maxEntries then |before| else maxEntries)
    && (forall out, kept :: out in before && out !in after && kept in after ==>
          ScoreEntry(before[out], turn) <= ScoreEntry(before[kept], turn))
  }

  lemma NothingEvicted(entries: map<string, Entry>, turn: nat, maxEntries: nat)
    requires |entries| <= maxEntries
    ensures SoundEviction(entries, entries, turn, maxEntries)
  {
  }

  lemma EvictionIsCoherent(before: map<string, Entry>, after: map<string, Entry>, turn: nat, maxEntries: nat)
    requires Coherent(before, turn) && SoundEviction(before, after, turn, maxEntries)
    ensures Coherent(after, turn)
  {
    hide ScoreEntry;
  }

  /** What an eviction spares: of equally touched paths the later touched stays, unless their ages count the same, and a
      path touched at least twice more than another always stays before it. */
  lemma EvictionSparesRecent(
    before: map<string, Entry>, after: map<string, Entry>, turn: nat, maxEntries: nat, out: string, kept: string)
    requires SoundEviction(before, after, turn, maxEntries)
    requires out in before && out !in after && kept in after
    ensures before[out].touches == before[kept].touches ==>
              before[out].lastTurn <= before[kept].lastTurn
              || SameBracket(Age(before[out], turn), Age(before[kept], turn))
    ensures before[out].touches <= before[kept].touches + 1
  {
    hide SameBracket, Age;
    assert kept in before && ScoreEntry(before[out], turn) <= ScoreEntry(before[kept], turn);
    if before[out].touches == before[kept].touches && before[out].lastTurn > before[kept].lastTurn {
      LaterScoresHigher(before[out], before[kept], turn);
    }
  }

  /** Within one bracket the order is open: a later touched path may go while an earlier one stays. */
  lemma SameBracketMayEvictLater()
    ensures var later := Entry("a", false, true, 1, 7, UserMessage);
            var earlier := Entry("b", false, true, 1, 5, UserMessage);
            SoundEviction(map["a" := later, "b" := earlier], map["b" := earlier], 10, 1)
  {
    var later := Entry("a", false, true, 1, 7, UserMessage);
    var earlier := Entry("b", false, true, 1, 5, UserMessage);
    var before, after := map["a" := later, "b" := earlier], map["b" := earlier];
    assert before.Keys == {"a", "b"} && after.Keys == {"b"};
    assert |before| == |before.Keys| == 2 && |after| == |after.Keys| == 1;
  }

  /** Paths ranked by ascending score, ties in any order. */
  ghost predicate Ranked(ranked: seq<string>, entries: map<string, Entry>, turn: nat) {
    && Enumerates(ranked, entries.Keys)
    && forall i, j :: 0 <= i < j < |ranked| ==>
         ScoreEntry(entries[ranked[i]], turn) <= ScoreEntry(entries[ranked[j]], turn)
  }

  function Elements(s: seq<string>): set<string> {
    set k | k in s
  }

  lemma SurvivorsAreEnumerated(ranked: seq<string>, keys: set<string>, excess: nat)
    requires Enumerates(ranked, keys) && excess <= |ranked|
    ensures Enumerates(ranked[excess..], keys - Elements(ranked[..excess]))
  {
    forall k ensures k in ranked[excess..] <==> k in keys && k !in ranked[..excess] {
      if k in keys {
        var i :| 0 <= i < |ranked| && ranked[i] == k;
        if i < excess {
          assert ranked[..excess][i] == k;
          forall j | 0 <= j < |ranked| - excess ensures ranked[excess..][j] != k {
            assert ranked[excess..][j] == ranked[excess + j];
          }
        } else {
          assert ranked[excess..][i - excess] == k;
        }
      }
      if k in ranked[excess..] {
        assert k in ranked;
      }
    }
  }

  lemma EvictionSize(ranked: seq<string>, entries: map<string, Entry>, excess: nat)
    requires Enumerates(ranked, entries.Keys) && excess <= |entries|
    ensures |ranked| == |entries|
    ensures |entries - Elements(ranked[..excess])| == |entries| - excess
    ensures Enumerates(ranked[excess..], (entries - Elements(ranked[..excess])).Keys)
  {
    EnumerationSize(ranked, entries.Keys);
    SurvivorsAreEnumerated(ranked, entries.Keys, excess);
    var after := entries - Elements(ranked[..excess]);
    assert after.Keys == entries.Keys - Elements(ranked[..excess]);
    EnumerationSize(ranked[excess..], after.Keys);
    assert |after| == |after.Keys|;
  }

  /** Dropping the head of a ranking is sound whatever order ties and hashing produced. */
  lemma EvictingHeadIsSound(ranked: seq<string>, entries: map<string, Entry>, turn: nat, maxEntries: nat)
    requires Ranked(ranked, entries, turn) && |entries| > maxEntries
    ensures |ranked| == |entries|
    ensures |entries - Elements(ranked[..|entries| - maxEntries])| == maxEntries
    ensures SoundEviction(entries, entries - Elements(ranked[..|entries| - maxEntries]), turn, maxEntries)
  {
    hide ScoreEntry;
    var excess := |entries| - maxEntries;
    EvictionSize(ranked, entries, excess);
    var after := entries - Elements(ranked[..excess]);
    forall out, kept | out in entries && out !in after && kept in after
      ensures ScoreEntry(entries[out], turn) <= ScoreEntry(entries[kept], turn)
    {
      EvictedScoresLow(ranked, entries, turn, excess, out, kept);
    }
  }

  lemma EvictedScoresLow(
    ranked: seq<string>, entries: map<string, Entry>, turn: nat, excess: nat, out: string, kept: string)
    requires Ranked(ranked, entries, turn) && excess <= |ranked|
    requires out in ranked[..excess] && kept in entries && kept !in ranked[..excess]
    ensures out in entries
    ensures ScoreEntry(entries[out], turn) <= ScoreEntry(entries[kept], turn)
  {
    hide ScoreEntry;
    var i :| 0 <= i < excess && ranked[..excess][i] == out;
    SurvivorsAreEnumerated(ranked, entries.Keys, excess);
    var j :| 0 <= j < |ranked| - excess && ranked[excess..][j] == kept;
    assert ranked[i] == out && ranked[excess + j] == kept && ranked[i] in ranked;
  }

  /** One `record_candidates` call: record them all, then evict soundly. */
  ghost predicate Recording(
    before: map<string, Entry>, after: map<string, Entry>, turn: nat, maxEntries: nat,
    candidates: seq<Option<Candidate>>, source: Source)
  {
    SoundEviction(RecordedAll(before, turn, candidates, source), after, turn, maxEntries)
  }

  function Advanced(turn: nat): nat {
    if turn >= U64_MAX then U64_MAX else turn + 1
  }

  /** `entries` and `turn` are what replaying `messages` from an empty set can lead to. */
  ghost predicate Rebuilt(messages: seq<SessionMessage>, maxEntries: nat, entries: map<string, Entry>, turn: nat) {
    if messages == [] then entries == map[] && turn == 0
    else
      var last := messages[|messages| - 1];
      exists before, turnBefore: nat {:trigger Replayed(last, maxEntries, before, turnBefore, entries, turn)} ::
        && Rebuilt(messages[..|messages| - 1], maxEntries, before, turnBefore)
        && Replayed(last, maxEntries, before, turnBefore, entries, turn)
  }

  ghost predicate Replayed(
    m: SessionMessage, maxEntries: nat, before: map<string, Entry>, turnBefore: nat, after: map<string, Entry>,
    turn: nat)
  {
    && turn == (if m.fromUser then Advanced(turnBefore) else turnBefore)
    && Recording(before, after, turn, maxEntries, m.candidates, Rebuild)
  }

  function UserMessages(messages: seq<SessionMessage>): nat {
    if messages == [] then 0
    else UserMessages(messages[..|messages| - 1]) + if messages[|messages| - 1].fromUser then 1 else 0
  }

  /** A rebuilt set counts its turns by user messages, and is coherent. */
  lemma {:induction false} RebuiltCountsTurns(
    messages: seq<SessionMessage>, maxEntries: nat, entries: map<string, Entry>, turn: nat)
    requires Rebuilt(messages, maxEntries, entries, turn)
    ensures turn == if UserMessages(messages) >= U64_MAX then U64_MAX else UserMessages(messages)
  {
    hide Recording;
    if messages != [] {
      var last := messages[|messages| - 1];
      var before, turnBefore: nat :|
        Rebuilt(messages[..|messages| - 1], maxEntries, before, turnBefore)
        && Replayed(last, maxEntries, before, turnBefore, entries, turn);
      RebuiltCountsTurns(messages[..|messages| - 1], maxEntries, before, turnBefore);
    }
  }

  // ---- Ordered views ----

  predicate ScoreLe(a: (string, int), b: (string, int)) {
    a.1 <= b.1
  }

  /** Most touched first, then by path. */
  predicate PromptLe(a: Entry, b: Entry) {
    a.touches > b.touches || (a.touches == b.touches && LexLe(a.path, b.path))
  }

  /** Highest score first, then by path. */
  function RecencyLe(turn: nat): (Entry, Entry) -> bool {
    (a, b) => ScoreEntry(a, turn) > ScoreEntry(b, turn)
              || (ScoreEntry(a, turn) == ScoreEntry(b, turn) && LexLe(a.path, b.path))
  }

  /** The entries as a hash iteration yields them. */
  function Values(entries: map<string, Entry>, order: seq<string>): (r: seq<Entry>)
    requires forall k :: k in order ==> k in entries
    ensures |r| == |order|
    ensures forall i :: 0 <= i < |r| ==> r[i] == entries[order[i]]
  {
    seq(|order|, i requires 0 <= i < |order| => entries[order[i]])
  }

  function SortedForPrompt(entries: map<string, Entry>, order: seq<string>): seq<Entry>
    requires forall k :: k in order ==> k in entries
  {
    Sort(Values(entries, order), PromptLe)
  }

  function SortedEntries(entries: map<string, Entry>, order: seq<string>, turn: nat): seq<Entry>
    requires forall k :: k in order ==> k in entries
  {
    Sort(Values(entries, order), RecencyLe(turn))
  }

  /** The active-path lines of the prompt block. */
  function ActivePaths(entries: map<string, Entry>, order: seq<string>, maxPromptEntries: nat): seq<(string, bool)>
    requires forall k :: k in order ==> k in entries
  {
    var sorted := SortedForPrompt(entries, order);
    var shown := if |sorted| <= maxPromptEntries then sorted else sorted[..maxPromptEntries];
    seq(|shown|, i requires 0 <= i < |shown| => (shown[i].path, shown[i].isDir))
  }

  lemma PromptOrderLaws()
    ensures TotalPreorder(PromptLe)
  {
    forall x, y ensures PromptLe(x, y) || PromptLe(y, x) {
      LexTotal(x.path, y.path);
    }
    forall x, y, z | PromptLe(x, y) && PromptLe(y, z) ensures PromptLe(x, z) {
      if x.touches == y.touches == z.touches {
        LexTransitive(x.path, y.path, z.path);
      }
    }
  }

  lemma RecencyOrderLaws(turn: nat)
    ensures TotalPreorder(RecencyLe(turn))
  {
    forall x, y ensures RecencyLe(turn)(x, y) || RecencyLe(turn)(y, x) {
      LexTotal(x.path, y.path);
    }
    forall x, y, z | RecencyLe(turn)(x, y) && RecencyLe(turn)(y, z) ensures RecencyLe(turn)(x, z) {
      if ScoreEntry(x, turn) == ScoreEntry(y, turn) == ScoreEntry(z, turn) {
        LexTransitive(x.path, y.path, z.path);
      }
    }
  }

  lemma SplitMultiset<T>(s: seq<T>, j: nat)
    requires j < |s|
    ensures multiset(s) == multiset(s[..j] + s[j + 1..]) + multiset{s[j]}
    ensures multiset(s[..j] + s[j + 1..]) == multiset(s) - multiset{s[j]}
  {
    assert s == s[..j] + [s[j]] + s[j + 1..];
  }

  lemma ValuesWithout(entries: map<string, Entry>, order: seq<string>, j: nat)
    requires (forall k :: k in order ==> k in entries) && j < |order|
    ensures var rest := order[..j] + order[j + 1..];
            && (forall k :: k in rest ==> k in entries)
            && Values(entries, rest) == Values(entries, order)[..j] + Values(entries, order)[j + 1..]
  {
  }

  lemma ValuesLoseOne(entries: map<string, Entry>, order: seq<string>, j: nat)
    requires (forall k :: k in order ==> k in entries) && j < |order|
    ensures forall k :: k in order[..j] + order[j + 1..] ==> k in entries
    ensures multiset(Values(entries, order))
         == multiset(Values(entries, order[..j] + order[j + 1..])) + multiset{entries[order[j]]}
  {
    ValuesWithout(entries, order, j);
    SplitMultiset(Values(entries, order), j);
  }

  lemma {:induction false} ValuesOfPermutations(entries: map<string, Entry>, order1: seq<string>, order2: seq<string>)
    requires forall k :: k in order1 ==> k in entries
    requires forall k :: k in order2 ==> k in entries
    requires multiset(order1) == multiset(order2)
    ensures multiset(Values(entries, order1)) == multiset(Values(entries, order2))
    decreases |order1|
  {
    hide Values;
    assert |multiset(order1)| == |multiset(order2)|;
    if order1 != [] {
      assert order1[0] in multiset(order2);
      var j :| 0 <= j < |order2| && order2[j] == order1[0];
      var rest1, rest2 := order1[..0] + order1[1..], order2[..j] + order2[j + 1..];
      SplitMultiset(order1, 0);
      SplitMultiset(order2, j);
      ValuesLoseOne(entries, order1, 0);
      ValuesLoseOne(entries, order2, j);
      ValuesOfPermutations(entries, rest1, rest2);
    } else {
      assert order2 == [];
    }
  }

  lemma {:induction false} EnumerationsArePermutations(order1: seq<string>, order2: seq<string>, keys: set<string>)
    requires Enumerates(order1, keys) && Enumerates(order2, keys)
    ensures multiset(order1) == multiset(order2)
  {
    EnumerationIsSet(order1, keys);
    EnumerationIsSet(order2, keys);
  }

  lemma {:induction false} EnumerationIsSet(order: seq<string>, keys: set<string>)
    requires Enumerates(order, keys)
    ensures multiset(order) == multiset(keys)
  {
    if order == [] {
      assert keys == {};
    } else {
      var n := |order| - 1;
      assert order[n] in order;
      assert forall i :: 0 <= i < n ==> order[..n][i] == order[i] && order[i] in order;
      EnumerationIsSet(order[..n], keys - {order[n]});
      assert order == order[..n] + [order[n]];
    }
  }

  /** The prompt's order is a function of the entries alone: any two iteration orders give the same
      sequence, so the rendered active paths cannot drift while no path is touched, whatever the turn. */
  lemma PromptOrderIsCanonical(
    entries: map<string, Entry>, turn: nat, order1: seq<string>, order2: seq<string>, maxPromptEntries: nat)
    requires Coherent(entries, turn) && Enumerates(order1, entries.Keys) && Enumerates(order2, entries.Keys)
    ensures SortedForPrompt(entries, order1) == SortedForPrompt(entries, order2)
    ensures ActivePaths(entries, order1, maxPromptEntries) == ActivePaths(entries, order2, maxPromptEntries)
  {
    PromptOrderLaws();
    SortsAgree(entries, turn, order1, order2, PromptLe);
  }

  /** What the prompt's order is: every entry once, the most touched first, and equally touched ones by path. */
  lemma PromptOrderSays(entries: map<string, Entry>, turn: nat, order: seq<string>)
    requires Coherent(entries, turn) && Enumerates(order, entries.Keys)
    ensures var sorted := SortedForPrompt(entries, order);
            && multiset(sorted) == multiset(Values(entries, order))
            && forall i, j :: 0 <= i < j < |sorted| ==>
                 sorted[i].touches > sorted[j].touches
                 || (sorted[i].touches == sorted[j].touches && LexLe(sorted[i].path, sorted[j].path))
  {
    PromptOrderLaws();
    SortLaws(Values(entries, order), PromptLe);
  }

  /** The prompt's lines are the first of them, as many as fit, each with its path and kind. */
  lemma ActivePathsSay(entries: map<string, Entry>, order: seq<string>, maxPromptEntries: nat)
    requires forall k :: k in order ==> k in entries
    ensures var sorted := SortedForPrompt(entries, order);
            var lines := ActivePaths(entries, order, maxPromptEntries);
            && |lines| == (if |sorted| <= maxPromptEntries then |sorted| else maxPromptEntries)
            && forall i :: 0 <= i < |lines| ==> lines[i] == (sorted[i].path, sorted[i].isDir)
  {
    hide SortedForPrompt;
  }

  /** The recency order: every entry once, the highest score first, and equal ones by path. */
  lemma RecencyOrderSays(entries: map<string, Entry>, turn: nat, order: seq<string>)
    requires Coherent(entries, turn) && Enumerates(order, entries.Keys)
    ensures var sorted := SortedEntries(entries, order, turn);
            && multiset(sorted) == multiset(Values(entries, order))
            && forall i, j :: 0 <= i < j < |sorted| ==>
                 ScoreEntry(sorted[i], turn) > ScoreEntry(sorted[j], turn)
                 || (ScoreEntry(sorted[i], turn) == ScoreEntry(sorted[j], turn)
                     && LexLe(sorted[i].path, sorted[j].path))
  {
    hide ScoreEntry;
    RecencyOrderLaws(turn);
    SortLaws(Values(entries, order), RecencyLe(turn));
  }

  /** The recency order is canonical too, for a given turn. */
  lemma RecencyOrderIsCanonical(entries: map<string, Entry>, turn: nat, order1: seq<string>, order2: seq<string>)
    requires Coherent(entries, turn) && Enumerates(order1, entries.Keys) && Enumerates(order2, entries.Keys)
    ensures SortedEntries(entries, order1, turn) == SortedEntries(entries, order2, turn)
  {
    RecencyOrderLaws(turn);
    SortsAgree(entries, turn, order1, order2, RecencyLe(turn));
  }

  lemma SortsAgree(
    entries: map<string, Entry>, turn: nat, order1: seq<string>, order2: seq<string>, le: (Entry, Entry) -> bool)
    requires Coherent(entries, turn) && Enumerates(order1, entries.Keys) && Enumerates(order2, entries.Keys)
    requires TotalPreorder(le) && forall x :: le(x, x)
    requires forall x, y :: le(x, y) && le(y, x) ==> LexLe(x.path, y.path) && LexLe(y.path, x.path)
    ensures Sort(Values(entries, order1), le) == Sort(Values(entries, order2), le)
  {
    hide ScoreEntry, Values, Sort, LexLe, TotalPreorder, Sorted;
    EnumerationsArePermutations(order1, order2, entries.Keys);
    ValuesOfPermutations(entries, order1, order2);
    var v1, v2 := Values(entries, order1), Values(entries, order2);
    SortLaws(v1, le);
    SortLaws(v2, le);
    var s1 := Sort(v1, le);
    forall x | x in s1 ensures x in v1 {
      assert x in multiset(s1);
    }
    forall x, y | x in s1 && y in s1 && le(x, y) && le(y, x) ensures x == y {
      LexAntisymmetric(x.path, y.path);
      ValuesKeyed(entries, turn, order1, x, y);
    }
    SortedIsUnique(s1, Sort(v2, le), le);
  }

  lemma ValuesKeyed(entries: map<string, Entry>, turn: nat, order: seq<string>, x: Entry, y: Entry)
    requires Coherent(entries, turn) && forall k :: k in order ==> k in entries
    requires x in Values(entries, order) && y in Values(entries, order) && x.path == y.path
    ensures x == y
  {
    var values := Values(entries, order);
    var i :| 0 <= i < |values| && values[i] == x;
    var j :| 0 <= j < |values| && values[j] == y;
    assert order[i] in order && order[j] in order;
  }

  /** Why the prompt does not use the recency order: it moves as turns pass although nothing is touched. */
  lemma RecencyOrderDrifts()
    ensures var older := Entry("b", false, true, 2, 0, UserMessage);
            var newer := Entry("a", false, true, 1, 20, UserMessage);
            var entries := map["a" := newer, "b" := older];
            && Coherent(entries, 20)
            && SortedEntries(entries, ["a", "b"], 20) == [newer, older]
            && SortedEntries(entries, ["a", "b"], 31) == [older, newer]
            && SortedForPrompt(entries, ["a", "b"]) == [older, newer]
  {
    var older := Entry("b", false, true, 2, 0, UserMessage);
    var newer := Entry("a", false, true, 1, 20, UserMessage);
    var entries := map["a" := newer, "b" := older];
    var values := Values(entries, ["a", "b"]);
    assert values == [newer, older];
    assert values[1..] == [older] && values[1..][1..] == [];
    SortPair(newer, older, RecencyLe(20));
    SortPair(newer, older, RecencyLe(31));
    SortPair(newer, older, PromptLe);
  }

  lemma SortPair<T>(x: T, y: T, le: (T, T) -> bool)
    ensures Sort([x, y], le) == if le(x, y) then [x, y] else [y, x]
  {
    assert [x, y][1..] == [y];
    assert [y][1..] == [];
    assert Sort([y], le) == Insert(y, [], le) == [y];
    assert Insert(x, [], le) == [x];
  }

  // ---- The mutable set ----

  class WorkingSet {
    const maxEntries: nat
    var turn: nat
    var entries: map<string, Entry>

    ghost predicate Valid()
      reads this
    {
      Coherent(entries, turn) && |entries| <= maxEntries
    }

    constructor (maxEntries: nat)
      ensures Valid() && entries == map[] && turn == 0 && this.maxEntries == maxEntries
    {
      this.maxEntries := maxEntries;
      turn := 0;
      entries := map[];
    }

    method NextTurn()
      requires Valid()
      modifies this`turn
      ensures Valid() && turn == Advanced(old(turn))
    {
      if turn < U64_MAX {
        turn := turn + 1;
      }
    }

    method RecordPath(c: Candidate, source: Source)
      modifies this`entries
      ensures entries == Recorded(old(entries), turn, c, source)
    {
      if c.path in entries {
        var entry := entries[c.path];
        entry := entry.(onDisk := entry.onDisk || c.onDisk, isDir := entry.isDir || c.isDir);
        entry := entry.(touches := if entry.touches >= U32_MAX then U32_MAX else entry.touches + 1);
        entry := entry.(lastTurn := turn, lastSource := source);
        entries := entries[c.path := entry];
      } else {
        entries := entries[c.path := Entry(c.path, c.isDir, c.onDisk, 1, turn, source)];
      }
    }

    /** `(path, score)` of every entry in hash iteration order, which is whatever `:|` picks. */
    method RankInHashOrder() returns (ranked: seq<(string, int)>, ghost order: seq<string>)
      requires Coherent(entries, turn)
      ensures Enumerates(order, entries.Keys) && |ranked| == |order|
      ensures forall i :: 0 <= i < |order| ==> order[i] in entries
      ensures forall i :: 0 <= i < |order| ==> ranked[i] == (order[i], ScoreEntry(entries[order[i]], turn))
    {
      var pending := entries.Keys;
      ranked, order := [], [];
      while pending != {}
        invariant pending <= entries.Keys
        invariant Enumerates(order, entries.Keys - pending)
        invariant |ranked| == |order|
        invariant forall i :: 0 <= i < |order| ==> order[i] in entries
        invariant forall i :: 0 <= i < |order| ==> ranked[i] == (order[i], ScoreEntry(entries[order[i]], turn))
        decreases pending
      {
        var key :| key in pending;
        ranked := ranked + [(entries[key].path, ScoreEntry(entries[key], turn))];
        order := order + [key];
        pending := pending - {key};
      }
    }

    method RankByScore() returns (ranked: seq<string>)
      requires Coherent(entries, turn)
      ensures Ranked(ranked, entries, turn)
    {
      hide ScoreEntry, Coherent, Sort, Ranked, Enumerates;
      var scored, order := RankInHashOrder();
      var sorted := Sort(scored, ScoreLe);
      RankingIsRanked(entries, turn, scored, order);
      ranked := Paths(sorted);
    }

    method Prune()
      requires Coherent(entries, turn)
      modifies this`entries
      ensures Valid() && SoundEviction(old(entries), entries, turn, maxEntries)
    {
      hide ScoreEntry, Coherent, Ranked, SoundEviction, Elements;
      if |entries| <= maxEntries {
        NothingEvicted(entries, turn, maxEntries);
        return;
      }
      var ranked := RankByScore();
      EvictingHeadIsSound(ranked, entries, turn, maxEntries);
      EvictionIsCoherent(entries, entries - Elements(ranked[..|entries| - maxEntries]), turn, maxEntries);
      RemoveFirst(ranked, |entries| - maxEntries);
    }

    method RemoveFirst(paths: seq<string>, count: nat)
      requires count <= |paths|
      modifies this`entries
      ensures entries == old(entries) - Elements(paths[..count])
    {
      for i := 0 to count
        invariant entries == old(entries) - Elements(paths[..i])
      {
        assert paths[..i + 1] == paths[..i] + [paths[i]];
        entries := entries - {paths[i]};
      }
    }

    method RecordCandidates(candidates: seq<Option<Candidate>>, source: Source)
      requires Valid()
      modifies this`entries
      ensures Valid()
      ensures Recording(old(entries), entries, turn, maxEntries, candidates, source)
    {
      if candidates == [] {
        NothingRecorded(entries, turn, maxEntries, source);
        return;
      }
      for i := 0 to |candidates|
        invariant entries == RecordedAll(old(entries), turn, candidates[..i], source)
      {
        assert candidates[..i + 1][..i] == candidates[..i];
        if candidates[i].Some? {
          RecordPath(candidates[i].value, source);
        }
      }
      assert candidates[..|candidates|] == candidates;
      RecordingIsCoherent(old(entries), turn, candidates, source);
      Prune();
    }

    method ObserveUserMessage(candidates: seq<Option<Candidate>>)
      requires Valid()
      modifies this
      ensures Valid() && turn == Advanced(old(turn))
      ensures Recording(old(entries), entries, turn, maxEntries, candidates, UserMessage)
    {
      NextTurn();
      RecordCandidates(candidates, UserMessage);
    }

    method ObserveToolCall(inputs: seq<Option<Candidate>>, outputs: Option<seq<Option<Candidate>>>)
      requires Valid()
      modifies this`entries
      ensures Valid()
      ensures exists mid ::
                && Recording(old(entries), mid, turn, maxEntries, inputs, ToolInput)
                && if outputs.None? then entries == mid
                   else Recording(mid, entries, turn, maxEntries, outputs.value, ToolOutput)
    {
      hide Recording;
      RecordCandidates(inputs, ToolInput);
      if outputs.Some? {
        RecordCandidates(outputs.value, ToolOutput);
      }
    }

    method RebuildFromMessages(messages: seq<SessionMessage>)
      requires Valid()
      modifies this
      ensures Valid() && Rebuilt(messages, maxEntries, entries, turn)
    {
      hide Recording, Coherent;
      entries := map[];
      turn := 0;
      EmptyIsCoherent();
      for i := 0 to |messages|
        invariant Valid() && Rebuilt(messages[..i], maxEntries, entries, turn)
      {
        ghost var before, turnBefore := entries, turn;
        assert messages[..i + 1][..i] == messages[..i];
        if messages[i].fromUser {
          NextTurn();
        }
        if messages[i].candidates != [] {
          RecordCandidates(messages[i].candidates, Rebuild);
        } else {
          NothingRecorded(entries, turn, maxEntries, Rebuild);
        }
        RebuiltStep(messages[..i + 1], maxEntries, before, turnBefore, entries, turn);
      }
      assert messages[..|messages|] == messages;
    }
  }

  lemma RebuiltStep(
    messages: seq<SessionMessage>, maxEntries: nat, before: map<string, Entry>, turnBefore: nat,
    entries: map<string, Entry>, turn: nat)
    requires messages != [] && Rebuilt(messages[..|messages| - 1], maxEntries, before, turnBefore)
    requires turn == if messages[|messages| - 1].fromUser then Advanced(turnBefore) else turnBefore
    requires Recording(before, entries, turn, maxEntries, messages[|messages| - 1].candidates, Rebuild)
    ensures Rebuilt(messages, maxEntries, entries, turn)
  {
    hide Recording;
    assert Replayed(messages[|messages| - 1], maxEntries, before, turnBefore, entries, turn);
  }

  lemma EmptyIsCoherent()
    ensures Coherent(map[], 0)
  {
  }

  lemma NothingRecorded(entries: map<string, Entry>, turn: nat, maxEntries: nat, source: Source)
    requires |entries| <= maxEntries
    ensures Recording(entries, entries, turn, maxEntries, [], source)
  {
    NothingEvicted(entries, turn, maxEntries);
  }

  function Paths(scored: seq<(string, int)>): (r: seq<string>)
    ensures |r| == |scored|
    ensures forall i :: 0 <= i < |r| ==> r[i] == scored[i].0
  {
    seq(|scored|, i requires 0 <= i < |scored| => scored[i].0)
  }

  lemma ScoreOrderLaws()
    ensures TotalPreorder(ScoreLe)
  {
  }

  /** Sorting the scored paths of any enumeration gives a ranking of the entries. */
  lemma RankingIsRanked(entries: map<string, Entry>, turn: nat, scored: seq<(string, int)>, order: seq<string>)
    requires Enumerates(order, entries.Keys) && |scored| == |order|
    requires forall i :: 0 <= i < |order| ==> order[i] in entries
    requires forall i :: 0 <= i < |order| ==> scored[i] == (order[i], ScoreEntry(entries[order[i]], turn))
    ensures Ranked(Paths(Sort(scored, ScoreLe)), entries, turn)
  {
    hide ScoreEntry, Sort, TotalPreorder, Enumerates;
    ScoreOrderLaws();
    SortLaws(scored, ScoreLe);
    var ranked := Sort(scored, ScoreLe);
    PermutedPathsAreKeys(entries, turn, scored, ranked, order);
    forall i, j | 0 <= i < j < |ranked|
      ensures ScoreEntry(entries[Paths(ranked)[i]], turn) <= ScoreEntry(entries[Paths(ranked)[j]], turn)
    {
      assert ScoreLe(ranked[i], ranked[j]);
    }
  }

  lemma PermutedPathsAreKeys(
    entries: map<string, Entry>, turn: nat, scored: seq<(string, int)>, ranked: seq<(string, int)>, order: seq<string>)
    requires Enumerates(order, entries.Keys) && |scored| == |order| && multiset(scored) == multiset(ranked)
    requires forall i :: 0 <= i < |order| ==> order[i] in entries
    requires forall i :: 0 <= i < |order| ==> scored[i] == (order[i], ScoreEntry(entries[order[i]], turn))
    ensures Enumerates(Paths(ranked), entries.Keys)
    ensures forall i :: 0 <= i < |ranked| ==>
              Paths(ranked)[i] in entries && ranked[i].1 == ScoreEntry(entries[Paths(ranked)[i]], turn)
  {
    hide ScoreEntry;
    forall i | 0 <= i < |ranked|
      ensures Paths(ranked)[i] in entries && ranked[i].1 == ScoreEntry(entries[Paths(ranked)[i]], turn)
    {
      assert ranked[i] in multiset(ranked);
      assert ranked[i] in scored;
    }
    PermutedPathsAreDistinct(scored, ranked);
    forall k | k in entries ensures k in Paths(ranked) {
      assert k in order;
      var i :| 0 <= i < |order| && order[i] == k;
      assert scored[i] in multiset(scored);
      assert scored[i] in ranked;
      var j :| 0 <= j < |ranked| && ranked[j] == scored[i];
      assert Paths(ranked)[j] == k;
    }
  }

  lemma PermutedPathsAreDistinct(scored: seq<(string, int)>, ranked: seq<(string, int)>)
    requires multiset(scored) == multiset(ranked)
    requires forall i, j :: 0 <= i < j < |scored| ==> scored[i].0 != scored[j].0
    ensures forall i, j :: 0 <= i < j < |ranked| ==> ranked[i].0 != ranked[j].0
  {
    forall i, j | 0 <= i < j < |ranked| ensures ranked[i].0 != ranked[j].0 {
      if ranked[i].0 == ranked[j].0 {
        assert ranked[i] in multiset(ranked) && ranked[j] in multiset(ranked);
        assert ranked[i] in scored && ranked[j] in scored;
        TwiceInMultiset(ranked, i, j);
        OnceWhenDistinct(scored, ranked[i]);
      }
    }
  }

  lemma TwiceInMultiset<T>(xs: seq<T>, i: nat, j: nat)
    requires i < j < |xs| && xs[i] == xs[j]
    ensures multiset(xs)[xs[i]] >= 2
  {
    assert xs == xs[..i] + [xs[i]] + xs[i + 1..j] + [xs[j]] + xs[j + 1..];
  }

  lemma {:induction false} OnceWhenDistinct<T>(xs: seq<T>, x: T)
    requires forall i, j :: 0 <= i < j < |xs| ==> xs[i] != xs[j]
    ensures multiset(xs)[x] <= 1
  {
    if xs != [] {
      OnceWhenDistinct(xs[1..], x);
      assert xs == [xs[0]] + xs[1..];
      if x == xs[0] {
        assert x !in xs[1..];
      }
    }
  }
}
