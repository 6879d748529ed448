/** Segmenting one turn's event stream into steps (scripts/kernel_v2_corpus_report.py).
    Timestamps are microseconds, the precision `datetime` keeps; reported phases are tenths of a
    millisecond. */
module StepSegmentation {
  import opened Text

  /** A `tool` payload; JSON `null` and missing fields are `None`. */
  datatype Tool = Tool(name: Option<string>, id: Option<string>)

  /** One SSE record: `tool` is `Some` exactly when the payload has the key `tool`. */
  datatype Record = Record(event: string, timestamp: int, tool: Option<Tool>, itemKind: string)

  /** A closed step with its exact boundaries and its three reported phases. */
  datatype Segment = Segment(
    index: nat,
    start: int,
    split: int,
    end: int,
    modelPhase: int,
    toolPhase: int,
    total: int,
    tools: seq<string>)

  const MICROS_PER_TENTH := 100

  /** `round(ms, 1)`: to the nearest tenth of a millisecond, ties to the even digit. */
  function MsBetween(start: int, end: int): (tenths: int)
    ensures -50 <= tenths * MICROS_PER_TENTH - (end - start) <= 50
    ensures end >= start ==> tenths >= 0
    ensures (end - start) % MICROS_PER_TENTH == 50 ==> tenths % 2 == 0
    ensures MICROS_PER_TENTH * (tenths - 1) < end - start < MICROS_PER_TENTH * (tenths + 1)
  {
    var below := (end - start) / MICROS_PER_TENTH;
    var rest := end - start - below * MICROS_PER_TENTH;
    if rest < 50 || (rest == 50 && below % 2 == 0) then below else below + 1
  }

  function ToolName(tool: Tool): string {
    if tool.name.Some? && tool.name.value != "" then tool.name.value else "unknown"
  }

  function ToolId(tool: Tool): string {
    if tool.id.Some? then tool.id.value else ""
  }

  predicate IsToolStart(r: Record) {
    r.event == "item.started" && r.tool.Some?
  }

  predicate IsToolFinish(r: Record) {
    r.event in ["item.completed", "item.failed", "item.interrupted"] && r.tool.Some?
  }

  predicate IsModelItemStart(r: Record) {
    r.event == "item.started" && r.tool.None?
    && (Contains(r.itemKind, "message") || Contains(r.itemKind, "thinking"))
  }

  /** The loop's variables. */
  datatype Scan = Scan(
    turnStart: Option<int>,
    turnEnd: Option<int>,
    steps: seq<Segment>,
    stepStart: Option<int>,
    batchFirstStart: Option<int>,
    batchLastEnd: Option<int>,
    batchTools: seq<string>,
    openToolIds: set<string>)

  const NOTHING := Scan(None, None, [], None, None, None, [], {})

  function MakeSegment(index: nat, start: int, split: int, end: int, tools: seq<string>): Segment {
    Segment(index, start, split, end, MsBetween(start, split), MsBetween(split, end), MsBetween(start, end), tools)
  }

  ghost function Closed(s: Scan): Scan {
    if s.stepStart.None? || s.batchFirstStart.None? || s.batchLastEnd.None? then s
    else
      var step := MakeSegment(
        |s.steps| + 1, s.stepStart.value, s.batchFirstStart.value, s.batchLastEnd.value, s.batchTools);
      s.(steps := s.steps + [step],
      stepStart := s.batchLastEnd,
      batchFirstStart := None,
      batchLastEnd := None,
      batchTools := [])
  }

  ghost function Consumed(s: Scan, r: Record): Scan {
    if r.event == "turn.started" then s.(turnStart := Some(r.timestamp), stepStart := Some(r.timestamp))
    else if IsToolStart(r) then
      s.(batchFirstStart := if s.batchFirstStart.None? then Some(r.timestamp) else s.batchFirstStart,
      batchTools := s.batchTools + [ToolName(r.tool.value)],
      openToolIds := s.openToolIds + {ToolId(r.tool.value)})
    else if IsToolFinish(r) then
      s.(openToolIds := s.openToolIds - {ToolId(r.tool.value)}, batchLastEnd := Some(r.timestamp))
    else if IsModelItemStart(r) then
      if s.batchFirstStart.Some? && s.openToolIds == {} && s.batchLastEnd.Some? then Closed(s) else s
    else if r.event == "turn.completed" then s.(turnEnd := Some(r.timestamp))
    else s
  }

  ghost function ScanAll(records: seq<Record>): Scan {
    if records == [] then NOTHING else Consumed(ScanAll(records[..|records| - 1]), records[|records| - 1])
  }

  /** What follows the loop: close the last batch, then the answer-only tail. */
  ghost function Finished(s: Scan): Scan {
    var c := if s.batchFirstStart.Some? && s.batchLastEnd.Some? then Closed(s) else s;
    if c.stepStart.Some? && c.turnEnd.Some? && c.turnEnd.value > c.stepStart.value then
      c.(steps := c.steps + [Segment(|c.steps| + 1, c.stepStart.value, c.turnEnd.value, c.turnEnd.value,
                                     MsBetween(c.stepStart.value, c.turnEnd.value), 0,
                                     MsBetween(c.stepStart.value, c.turnEnd.value), [])])
    else c
  }

  ghost function Steps(records: seq<Record>): seq<Segment> {
    Finished(ScanAll(records)).steps
  }

  /** The extraction as the script runs it, `CloseStep` being its nested closure. */
  class StepExtractor {
    var turnStart: Option<int>
    var turnEnd: Option<int>
    var steps: seq<Segment>
    var stepStart: Option<int>
    var batchFirstStart: Option<int>
    var batchLastEnd: Option<int>
    var batchTools: seq<string>
    var openToolIds: set<string>

    ghost function View(): Scan
      reads this
    {
      Scan(turnStart, turnEnd, steps, stepStart, batchFirstStart, batchLastEnd, batchTools, openToolIds)
    }

    constructor ()
      ensures View() == NOTHING
    {
      turnStart, turnEnd, steps, stepStart := None, None, [], None;
      batchFirstStart, batchLastEnd, batchTools, openToolIds := None, None, [], {};
    }

    method CloseStep()
      modifies this
      ensures View() == Closed(old(View()))
    {
      if stepStart.None? || batchFirstStart.None? || batchLastEnd.None? {
        return;
      }
      var step := MakeSegment(|steps| + 1, stepStart.value, batchFirstStart.value, batchLastEnd.value, batchTools);
      steps := steps + [step];
      stepStart := batchLastEnd;
      batchFirstStart := None;
      batchLastEnd := None;
      batchTools := [];
    }

    method Consume(r: Record)
      modifies this
      ensures View() == Consumed(old(View()), r)
    {
      if r.event == "turn.started" {
        turnStart := Some(r.timestamp);
        stepStart := Some(r.timestamp);
      } else if IsToolStart(r) {
        if batchFirstStart.None? {
          batchFirstStart := Some(r.timestamp);
        }
        batchTools := batchTools + [ToolName(r.tool.value)];
        openToolIds := openToolIds + {ToolId(r.tool.value)};
      } else if IsToolFinish(r) {
        openToolIds := openToolIds - {ToolId(r.tool.value)};
        batchLastEnd := Some(r.timestamp);
      } else if IsModelItemStart(r) {
        if batchFirstStart.Some? && openToolIds == {} && batchLastEnd.Some? {
          CloseStep();
        }
      } else if r.event == "turn.completed" {
        turnEnd := Some(r.timestamp);
      }
    }
  }

  method ExtractSteps(records: seq<Record>) returns (steps: seq<Segment>, duration: Option<int>)
    ensures steps == Steps(records)
    ensures var s := ScanAll(records);
            duration == if s.turnStart.Some? && s.turnEnd.Some? && steps != []
                        then Some(MsBetween(s.turnStart.value, s.turnEnd.value)) else None
    ensures IsTurn(records) ==>
              && (duration.Some? <==> steps != [])
              && (duration.Some? ==>
                    var exact := records[|records| - 1].timestamp - records[0].timestamp;
                    -50 <= duration.value * MICROS_PER_TENTH - exact <= 50)
  {
    hide MsBetween, Contains, IsTurn;
    var x := new StepExtractor();
    for n := 0 to |records|
      invariant x.View() == ScanAll(records[..n])
    {
      assert records[..n + 1][..n] == records[..n];
      x.Consume(records[n]);
    }
    assert records[..|records|] == records;
    if x.batchFirstStart.Some? && x.batchLastEnd.Some? {
      x.CloseStep();
    }
    steps := x.steps;
    if x.stepStart.Some? && x.turnEnd.Some? && x.turnEnd.value > x.stepStart.value {
      var tail := MsBetween(x.stepStart.value, x.turnEnd.value);
      steps := steps + [Segment(|x.steps| + 1, x.stepStart.value, x.turnEnd.value, x.turnEnd.value, tail, 0, tail, [])];
    }
    duration := None;
    if x.turnStart.Some? && x.turnEnd.Some? && steps != [] {
      duration := Some(MsBetween(x.turnStart.value, x.turnEnd.value));
    }
    if IsTurn(records) {
      TurnHasItsEnds(records);
    }
  }

  // ---- Tiling ----

  /** A turn still under way: it opened with its only `turn.started`, has not completed, and time did
      not run backwards. */
  predicate IsOpenTurn(records: seq<Record>) {
    && records != []
    && (forall i :: 0 <= i < |records| ==> (records[i].event == "turn.started" <==> i == 0))
    && (forall i :: 0 <= i < |records| ==> records[i].event != "turn.completed")
    && (forall i, j :: 0 <= i <= j < |records| ==> records[i].timestamp <= records[j].timestamp)
  }

  /** A whole turn: an open turn followed by `turn.completed`. */
  predicate IsTurn(records: seq<Record>) {
    var n := |records| - 1;
    && n >= 1
    && IsOpenTurn(records[..n])
    && records[n].event == "turn.completed"
    && records[n - 1].timestamp <= records[n].timestamp
  }

  ghost predicate ReportsItself(s: Segment) {
    && s.modelPhase == MsBetween(s.start, s.split)
    && s.toolPhase == MsBetween(s.split, s.end)
    && s.total == MsBetween(s.start, s.end)
  }

  /** Steps numbered from one and laid end to end from `from` to `to`. */
  ghost predicate Tile(steps: seq<Segment>, from: int, to: int) {
    if steps == [] then from == to
    else
      var last := steps[|steps| - 1];
      && last.index == |steps|
      && last.end == to
      && ReportsItself(last)
      && Tile(steps[..|steps| - 1], from, last.start)
  }

  lemma TileAppend(steps: seq<Segment>, from: int, s: Segment)
    requires Tile(steps, from, s.start) && s.index == |steps| + 1 && ReportsItself(s)
    ensures Tile(steps + [s], from, s.end)
  {
    assert (steps + [s])[..|steps|] == steps;
  }

  /** What tiling means step by step. */
  lemma {:induction false} TileAt(steps: seq<Segment>, from: int, to: int, i: nat)
    requires Tile(steps, from, to) && i < |steps|
    ensures steps[i].index == i + 1
    ensures steps[i].start == if i == 0 then from else steps[i - 1].end
    ensures i == |steps| - 1 ==> steps[i].end == to
    ensures ReportsItself(steps[i])
  {
    var n := |steps| - 1;
    if i < n {
      TileAt(steps[..n], from, steps[n].start, i);
    } else if n > 0 {
      TileAt(steps[..n], from, steps[n].start, n - 1);
    }
  }

  /** The scan of an open turn: closed steps tile the turn up to the current step's start, and every
      instant it holds lies between the turn's start and now. */
  ghost predicate Scanned(s: Scan, first: int, now: int) {
    && s.turnStart == Some(first)
    && s.turnEnd.None?
    && s.stepStart.Some?
    && first <= s.stepStart.value <= now
    && (s.batchFirstStart.Some? ==> first <= s.batchFirstStart.value <= now)
    && (s.batchLastEnd.Some? ==> first <= s.batchLastEnd.value <= now)
    && Tile(s.steps, first, s.stepStart.value)
  }

  lemma ClosedScanned(s: Scan, first: int, now: int)
    requires Scanned(s, first, now)
    ensures Scanned(Closed(s), first, now)
  {
    hide MsBetween;
    if s.batchFirstStart.Some? && s.batchLastEnd.Some? {
      TileAppend(s.steps, first, MakeSegment(
        |s.steps| + 1, s.stepStart.value, s.batchFirstStart.value, s.batchLastEnd.value, s.batchTools));
    }
  }

  lemma ConsumedScanned(s: Scan, first: int, now: int, r: Record)
    requires Scanned(s, first, now) && now <= r.timestamp
    requires r.event != "turn.started" && r.event != "turn.completed"
    ensures Scanned(Consumed(s, r), first, r.timestamp)
  {
    hide MsBetween, Contains, Closed;
    ClosedScanned(s, first, now);
  }

  lemma OpenTurnPrefix(records: seq<Record>)
    requires IsOpenTurn(records) && |records| >= 2
    ensures IsOpenTurn(records[..|records| - 1])
    ensures records[|records| - 2].timestamp <= records[|records| - 1].timestamp
  {
  }

  lemma {:induction false} ScanTiles(records: seq<Record>)
    requires IsOpenTurn(records)
    ensures Scanned(ScanAll(records), records[0].timestamp, records[|records| - 1].timestamp)
  {
    hide MsBetween, Contains, Closed;
    var n := |records| - 1;
    if n == 0 {
      assert ScanAll(records[..0]) == NOTHING;
    } else {
      OpenTurnPrefix(records);
      ScanTiles(records[..n]);
      ConsumedScanned(ScanAll(records[..n]), records[0].timestamp, records[n - 1].timestamp, records[n]);
    }
  }

  lemma {:induction false} OpenTurnStart(records: seq<Record>)
    requires IsOpenTurn(records)
    ensures ScanAll(records).turnStart == Some(records[0].timestamp)
  {
    hide MsBetween, Contains, Closed;
    var n := |records| - 1;
    if n == 0 {
      assert ScanAll(records[..0]) == NOTHING;
    } else {
      OpenTurnPrefix(records);
      OpenTurnStart(records[..n]);
      ClosedKeepsTurn(ScanAll(records[..n]));
    }
  }

  lemma ClosedKeepsTurn(s: Scan)
    ensures Closed(s).turnStart == s.turnStart && Closed(s).turnEnd == s.turnEnd
  {
  }

  lemma TurnHasItsEnds(records: seq<Record>)
    requires IsTurn(records)
    ensures ScanAll(records).turnStart == Some(records[0].timestamp)
    ensures ScanAll(records).turnEnd == Some(records[|records| - 1].timestamp)
  {
    hide IsOpenTurn, Consumed;
    var n := |records| - 1;
    OpenTurnStart(records[..n]);
    CompletionSetsEnd(ScanAll(records[..n]), records[n]);
  }

  /** The steps of a turn tile it exactly: numbered from one, the first starts with the turn, each
      starts where the one before ended, the last ends with the turn. */
  lemma StepsTileTurn(records: seq<Record>)
    requires IsTurn(records)
    ensures Tile(Steps(records), records[0].timestamp, records[|records| - 1].timestamp)
  {
    hide MsBetween, Contains, Closed;
    var n := |records| - 1;
    var first := records[0].timestamp;
    var s := ScanAll(records[..n]);
    ScanTiles(records[..n]);
    FinishedTiles(s, first, records[n - 1].timestamp, records[n]);
  }

  lemma CompletionSetsEnd(s: Scan, done: Record)
    requires done.event == "turn.completed"
    ensures Consumed(s, done) == s.(turnEnd := Some(done.timestamp))
    ensures Closed(Consumed(s, done)) == Closed(s).(turnEnd := Some(done.timestamp))
  {
    hide MsBetween, Contains;
  }

  lemma FinishedTiles(s: Scan, first: int, now: int, done: Record)
    requires Scanned(s, first, now) && now <= done.timestamp && done.event == "turn.completed"
    ensures Tile(Finished(Consumed(s, done)).steps, first, done.timestamp)
  {
    hide MsBetween, Contains, Closed, Consumed;
    CompletionSetsEnd(s, done);
    ClosedScanned(s, first, now);
    var c := if s.batchFirstStart.Some? && s.batchLastEnd.Some? then Closed(s) else s;
    var from := c.stepStart.value;
    if done.timestamp > from {
      var tail := MsBetween(from, done.timestamp);
      var last := Segment(|c.steps| + 1, from, done.timestamp, done.timestamp, tail, 0, tail, []);
      TileAppend(c.steps, first, last);
      assert Finished(Consumed(s, done)).steps == c.steps + [last];
    } else {
      assert Finished(Consumed(s, done)).steps == c.steps;
    }
  }

  function SumTotals(steps: seq<Segment>): int {
    if steps == [] then 0 else SumTotals(steps[..|steps| - 1]) + steps[|steps| - 1].total
  }

  function SumExact(steps: seq<Segment>): int {
    if steps == [] then 0
    else SumExact(steps[..|steps| - 1]) + (steps[|steps| - 1].end - steps[|steps| - 1].start)
  }

  lemma {:induction false} TilesSum(steps: seq<Segment>, from: int, to: int)
    requires Tile(steps, from, to)
    ensures SumExact(steps) == to - from
    ensures -50 * |steps| <= SumTotals(steps) * MICROS_PER_TENTH - (to - from) <= 50 * |steps|
  {
    hide MsBetween;
    if steps != [] {
      var n := |steps| - 1;
      TilesSum(steps[..n], from, steps[n].start);
    }
  }

  /** No time is lost: exact durations sum to the turn's, and the reported totals are off by at most
      0.05 ms per step. Within a step the reported phases add up to its total but for one tenth. */
  lemma ReportedTimeIsConserved(records: seq<Record>)
    requires IsTurn(records)
    ensures var steps := Steps(records);
            var duration := records[|records| - 1].timestamp - records[0].timestamp;
            && SumExact(steps) == duration
            && -50 * |steps| <= SumTotals(steps) * MICROS_PER_TENTH - duration <= 50 * |steps|
            && forall i :: 0 <= i < |steps| ==> -1 <= steps[i].modelPhase + steps[i].toolPhase - steps[i].total <= 1
  {
    hide MsBetween, Finished, ScanAll;
    var steps := Steps(records);
    var from, to := records[0].timestamp, records[|records| - 1].timestamp;
    StepsTileTurn(records);
    TilesSum(steps, from, to);
    forall i | 0 <= i < |steps| ensures -1 <= steps[i].modelPhase + steps[i].toolPhase - steps[i].total <= 1 {
      TileAt(steps, from, to, i);
    }
  }

  // ---- Tools ----

  function StartedTools(records: seq<Record>): seq<string> {
    if records == [] then []
    else
      var last := records[|records| - 1];
      StartedTools(records[..|records| - 1]) + if IsToolStart(last) then [ToolName(last.tool.value)] else []
  }

  function ReportedTools(steps: seq<Segment>): seq<string> {
    if steps == [] then [] else ReportedTools(steps[..|steps| - 1]) + steps[|steps| - 1].tools
  }

  lemma ReportedAppend(steps: seq<Segment>, s: Segment)
    ensures ReportedTools(steps + [s]) == ReportedTools(steps) + s.tools
  {
    assert (steps + [s])[..|steps|] == steps;
  }

  /** Tools seen so far: those of closed steps, then those of the open batch. */
  ghost function Accounted(s: Scan): seq<string> {
    ReportedTools(s.steps) + s.batchTools
  }

  lemma ClosedAccounts(s: Scan)
    requires s.stepStart.Some?
    ensures Accounted(Closed(s)) == Accounted(s)
    ensures s.batchFirstStart.Some? && s.batchLastEnd.Some? ==>
              Closed(s).batchTools == [] && Closed(s).batchFirstStart.None?
  {
    hide MsBetween;
    if s.batchFirstStart.Some? && s.batchLastEnd.Some? {
      ReportedAppend(s.steps, MakeSegment(
        |s.steps| + 1, s.stepStart.value, s.batchFirstStart.value, s.batchLastEnd.value, s.batchTools));
    }
  }

  lemma ConsumedAccounts(s: Scan, r: Record)
    requires s.stepStart.Some? && r.event != "turn.started"
    ensures Accounted(Consumed(s, r)) == Accounted(s) + if IsToolStart(r) then [ToolName(r.tool.value)] else []
    ensures (s.batchTools == [] <==> s.batchFirstStart.None?) ==>
              (Consumed(s, r).batchTools == [] <==> Consumed(s, r).batchFirstStart.None?)
  {
    hide MsBetween, Contains, Closed, ReportedTools;
    ClosedAccounts(s);
  }

  /** While scanning, no started tool is missing: it is in a closed step or in the open batch. */
  lemma {:induction false} ScanKeepsTools(records: seq<Record>)
    requires IsOpenTurn(records)
    ensures Accounted(ScanAll(records)) == StartedTools(records)
    ensures ScanAll(records).batchTools == [] <==> ScanAll(records).batchFirstStart.None?
  {
    hide MsBetween, Contains, Closed, Consumed, Tile, Accounted;
    var n := |records| - 1;
    if n == 0 {
      NothingAccounted(records);
    } else {
      OpenTurnPrefix(records);
      ScanKeepsTools(records[..n]);
      ScanTiles(records[..n]);
      ConsumedAccounts(ScanAll(records[..n]), records[n]);
    }
  }

  lemma NothingAccounted(records: seq<Record>)
    requires |records| == 1 && records[0].event == "turn.started"
    ensures Accounted(ScanAll(records)) == StartedTools(records) == []
    ensures ScanAll(records).batchTools == [] && ScanAll(records).batchFirstStart.None?
  {
    assert ScanAll(records[..0]) == NOTHING;
    assert StartedTools(records[..0]) == [];
  }

  /** Started and not finished since. */
  ghost function OpenIds(records: seq<Record>): set<string> {
    if records == [] then {}
    else
      var before := OpenIds(records[..|records| - 1]);
      var last := records[|records| - 1];
      if IsToolStart(last) then before + {ToolId(last.tool.value)}
      else if IsToolFinish(last) then before - {ToolId(last.tool.value)}
      else before
  }

  predicate SomeStart(records: seq<Record>, from: nat) {
    exists i :: from <= i < |records| && IsToolStart(records[i])
  }

  predicate SomeFinish(records: seq<Record>, from: nat) {
    exists i :: from <= i < |records| && IsToolFinish(records[i])
  }

  /** A model item that arrives when every open tool has finished closes the batch since record `from`. */
  ghost predicate ClosesBatch(before: seq<Record>, from: nat, r: Record) {
    IsModelItemStart(r) && SomeStart(before, from) && SomeFinish(before, from) && OpenIds(before) == {}
  }

  /** How many records there are up to and including the last model item that closed a batch. */
  ghost function LastClose(records: seq<Record>): (n: nat)
    ensures n <= |records|
  {
    if records == [] then 0
    else
      var before := records[..|records| - 1];
      if ClosesBatch(before, LastClose(before), records[|records| - 1]) then |records| else LastClose(before)
  }

  /** After the last closing item some tool started and none finished. */
  ghost predicate EndsInUnfinishedBatch(records: seq<Record>) {
    SomeStart(records, LastClose(records)) && !SomeFinish(records, LastClose(records))
  }

  lemma SomeAppend(records: seq<Record>, from: nat)
    requires records != [] && from < |records|
    ensures var n := |records| - 1;
            && (SomeStart(records, from) <==> SomeStart(records[..n], from) || IsToolStart(records[n]))
            && (SomeFinish(records, from) <==> SomeFinish(records[..n], from) || IsToolFinish(records[n]))
  {
    hide IsToolStart, IsToolFinish;
    var n := |records| - 1;
    assert forall i :: 0 <= i < n ==> records[..n][i] == records[i];
  }

  /** The loop's variables, read off the records. */
  lemma {:induction false} ScanBatch(records: seq<Record>)
    requires IsOpenTurn(records)
    ensures var s := ScanAll(records);
            && s.stepStart.Some?
            && (s.batchFirstStart.Some? <==> SomeStart(records, LastClose(records)))
            && (s.batchLastEnd.Some? <==> SomeFinish(records, LastClose(records)))
            && s.openToolIds == OpenIds(records)
  {
    hide MsBetween, Contains, SomeStart, SomeFinish;
    var n := |records| - 1;
    if n == 0 {
      assert ScanAll(records[..0]) == NOTHING && OpenIds(records[..0]) == {} && LastClose(records[..0]) == 0;
      NothingYet(records);
    } else {
      OpenTurnPrefix(records);
      ScanBatch(records[..n]);
      SomeAppend(records, LastClose(records[..n]));
      NothingAfter(records);
    }
  }

  lemma NothingAfter(records: seq<Record>)
    ensures !SomeStart(records, |records|) && !SomeFinish(records, |records|)
  {
  }

  lemma NothingYet(records: seq<Record>)
    requires |records| == 1 && records[0].event == "turn.started"
    ensures LastClose(records) == 0 && !SomeStart(records, 0) && !SomeFinish(records, 0)
  {
    assert LastClose(records[..0]) == 0;
  }

  lemma CompletionKeepsBatch(records: seq<Record>)
    requires IsTurn(records)
    ensures var s := ScanAll(records[..|records| - 1]);
            EndsInUnfinishedBatch(records) <==> s.batchFirstStart.Some? && s.batchLastEnd.None?
  {
    hide SomeStart, SomeFinish, Contains, Consumed;
    var n := |records| - 1;
    ScanBatch(records[..n]);
    SomeAppend(records, LastClose(records[..n]));
  }

  /** Exact condition: the steps list every started tool, in order, unless the stream ends inside a
      batch none of whose tools finished, and then some tool is missing. */
  lemma ToolsAreConservedIff(records: seq<Record>)
    requires IsTurn(records)
    ensures ReportedTools(Steps(records)) == StartedTools(records) <==> !EndsInUnfinishedBatch(records)
  {
    hide MsBetween, Contains, Closed, Tile, EndsInUnfinishedBatch;
    var n := |records| - 1;
    var s := ScanAll(records[..n]);
    ScanTiles(records[..n]);
    ScanKeepsTools(records[..n]);
    ClosedAccounts(s);
    assert StartedTools(records) == StartedTools(records[..n]);
    FinishedTools(s, records[n]);
    CompletionKeepsBatch(records);
  }

  lemma FinishedTools(s: Scan, done: Record)
    requires s.stepStart.Some? && done.event == "turn.completed"
    ensures var c := if s.batchFirstStart.Some? && s.batchLastEnd.Some? then Closed(s) else s;
            ReportedTools(Finished(Consumed(s, done)).steps) == ReportedTools(c.steps)
  {
    hide MsBetween, Contains, Closed, Consumed;
    CompletionSetsEnd(s, done);
    var c := if s.batchFirstStart.Some? && s.batchLastEnd.Some? then Closed(s) else s;
    var steps := Finished(Consumed(s, done)).steps;
    if |steps| > |c.steps| {
      ReportedAppend(c.steps, steps[|c.steps|]);
      assert steps == c.steps + [steps[|c.steps|]];
    }
  }

  // ---- Phases ----

  ghost predicate PhasesOrdered(steps: seq<Segment>) {
    forall i :: 0 <= i < |steps| ==> steps[i].start <= steps[i].split <= steps[i].end
  }

  /** The final close of a batch is the one that does not ask whether its tools are done. */
  ghost predicate ClosesBackwards(s: Scan) {
    s.batchFirstStart.Some? && s.batchLastEnd.Some? && s.batchLastEnd.value < s.batchFirstStart.value
  }

  /** What the loop keeps: no batch starts or ends before its step, and one with no tool open ends after it starts. */
  ghost predicate Ordered(s: Scan, now: int) {
    && s.stepStart.Some? && s.stepStart.value <= now
    && (s.batchFirstStart.Some? ==> s.stepStart.value <= s.batchFirstStart.value <= now)
    && (s.batchLastEnd.Some? ==> s.stepStart.value <= s.batchLastEnd.value <= now)
    && (s.batchFirstStart.Some? && s.openToolIds == {} ==> s.batchLastEnd.Some? && !ClosesBackwards(s))
    && PhasesOrdered(s.steps)
  }

  lemma ConsumedOrdered(s: Scan, now: int, r: Record)
    requires Ordered(s, now) && now <= r.timestamp && r.event != "turn.started"
    ensures Ordered(Consumed(s, r), r.timestamp)
  {
    hide MsBetween, Contains;
  }

  lemma {:induction false} ScanOrdered(records: seq<Record>)
    requires IsOpenTurn(records)
    ensures Ordered(ScanAll(records), records[|records| - 1].timestamp)
  {
    hide Consumed, Ordered;
    var n := |records| - 1;
    if n == 0 {
      StartIsOrdered(records);
    } else {
      OpenTurnPrefix(records);
      ScanOrdered(records[..n]);
      ConsumedOrdered(ScanAll(records[..n]), records[n - 1].timestamp, records[n]);
    }
  }

  lemma StartIsOrdered(records: seq<Record>)
    requires |records| == 1 && records[0].event == "turn.started"
    ensures Ordered(ScanAll(records), records[0].timestamp)
  {
    assert ScanAll(records[..0]) == NOTHING;
  }

  lemma ClosedOrderedIff(s: Scan, now: int)
    requires Ordered(s, now) && s.batchFirstStart.Some? && s.batchLastEnd.Some?
    ensures PhasesOrdered(Closed(s).steps) <==> !ClosesBackwards(s)
    ensures Closed(s).stepStart.Some?
  {
    hide MsBetween;
    var last := Closed(s).steps[|s.steps|];
    assert last.split == s.batchFirstStart.value && last.end == s.batchLastEnd.value;
  }

  lemma FinishedOrderedIff(s: Scan, now: int, done: Record)
    requires Ordered(s, now) && now <= done.timestamp && done.event == "turn.completed"
    ensures PhasesOrdered(Finished(Consumed(s, done)).steps) <==> !ClosesBackwards(s)
  {
    hide MsBetween, Contains, Consumed, Closed;
    CompletionSetsEnd(s, done);
    var c := if s.batchFirstStart.Some? && s.batchLastEnd.Some? then Closed(s) else s;
    if s.batchFirstStart.Some? && s.batchLastEnd.Some? {
      ClosedOrderedIff(s, now);
    }
    var steps := Finished(Consumed(s, done)).steps;
    assert steps[..|c.steps|] == c.steps;
    assert forall i :: 0 <= i < |c.steps| ==> steps[i] == c.steps[i];
  }

  predicate IsFirstStart(records: seq<Record>, from: nat, time: int) {
    && (exists i :: from <= i < |records| && IsToolStart(records[i]) && records[i].timestamp == time)
    && (forall i :: from <= i < |records| && IsToolStart(records[i]) ==> time <= records[i].timestamp)
  }

  predicate IsLastFinish(records: seq<Record>, from: nat, time: int) {
    && (exists i :: from <= i < |records| && IsToolFinish(records[i]) && records[i].timestamp == time)
    && (forall i :: from <= i < |records| && IsToolFinish(records[i]) ==> records[i].timestamp <= time)
  }

  lemma FirstStartAppend(records: seq<Record>, from: nat, time: int)
    requires IsOpenTurn(records) && from < |records|
    ensures var n := |records| - 1;
            && (IsFirstStart(records[..n], from, time) ==> IsFirstStart(records, from, time))
            && (!SomeStart(records[..n], from) && IsToolStart(records[n]) ==>
                  IsFirstStart(records, from, records[n].timestamp))
  {
    hide IsToolStart;
    var n := |records| - 1;
    var before := records[..n];
    assert forall i :: 0 <= i < n ==> before[i] == records[i];
    if IsFirstStart(before, from, time) {
      var i :| from <= i < |before| && IsToolStart(before[i]) && before[i].timestamp == time;
      assert records[i].timestamp == time && time <= records[n].timestamp;
    }
  }

  lemma LastFinishAppend(records: seq<Record>, from: nat, time: int)
    requires IsOpenTurn(records) && from < |records|
    ensures var n := |records| - 1;
            && (IsLastFinish(records[..n], from, time) && !IsToolFinish(records[n]) ==>
                  IsLastFinish(records, from, time))
            && (IsToolFinish(records[n]) ==> IsLastFinish(records, from, records[n].timestamp))
  {
    hide IsToolFinish;
    var n := |records| - 1;
    var before := records[..n];
    assert forall i :: 0 <= i < n ==> before[i] == records[i];
    if IsLastFinish(before, from, time) {
      var i :| from <= i < |before| && IsToolFinish(before[i]) && before[i].timestamp == time;
      assert records[i].timestamp == time;
    }
  }

  /** When the batch started and last ended, read off the records. */
  lemma {:induction false} ScanTimes(records: seq<Record>)
    requires IsOpenTurn(records)
    ensures var s := ScanAll(records);
            && (s.batchFirstStart.Some? ==> IsFirstStart(records, LastClose(records), s.batchFirstStart.value))
            && (s.batchLastEnd.Some? ==> IsLastFinish(records, LastClose(records), s.batchLastEnd.value))
  {
    hide MsBetween, Contains, SomeStart, SomeFinish, IsFirstStart, IsLastFinish;
    var n := |records| - 1;
    if n == 0 {
      assert ScanAll(records[..0]) == NOTHING;
    } else {
      OpenTurnPrefix(records);
      ScanTimes(records[..n]);
      ScanBatch(records[..n]);
      var s := ScanAll(records[..n]);
      var from := LastClose(records[..n]);
      FirstStartAppend(records, from, if s.batchFirstStart.Some? then s.batchFirstStart.value else 0);
      LastFinishAppend(records, from, if s.batchLastEnd.Some? then s.batchLastEnd.value else 0);
    }
  }

  predicate FinishesBeforeStarts(records: seq<Record>, from: nat) {
    forall i, j :: from <= i < |records| && from <= j < |records| && IsToolStart(records[i]) && IsToolFinish(records[j])
      ==> records[j].timestamp < records[i].timestamp
  }

  /** After the last closing item tools finished and started, and every finish came before every start. */
  ghost predicate EndsBeforeItStarts(records: seq<Record>) {
    var from := LastClose(records);
    SomeStart(records, from) && SomeFinish(records, from) && FinishesBeforeStarts(records, from)
  }

  lemma TimesCompare(records: seq<Record>, from: nat, first: int, last: int)
    requires IsFirstStart(records, from, first) && IsLastFinish(records, from, last)
    ensures last < first <==> FinishesBeforeStarts(records, from)
  {
    hide IsToolStart, IsToolFinish;
  }

  lemma BackwardsIff(records: seq<Record>)
    requires IsOpenTurn(records)
    ensures ClosesBackwards(ScanAll(records)) <==> EndsBeforeItStarts(records)
  {
    hide IsOpenTurn, IsFirstStart, IsLastFinish, SomeStart, SomeFinish, ScanAll, IsToolStart, IsToolFinish;
    var s := ScanAll(records);
    ScanBatch(records);
    ScanTimes(records);
    if s.batchFirstStart.Some? && s.batchLastEnd.Some? {
      TimesCompare(records, LastClose(records), s.batchFirstStart.value, s.batchLastEnd.value);
    }
  }

  lemma CompletionKeepsOrder(records: seq<Record>)
    requires IsTurn(records)
    ensures EndsBeforeItStarts(records) <==> EndsBeforeItStarts(records[..|records| - 1])
  {
    hide Contains, IsOpenTurn, SomeStart, SomeFinish, FinishesBeforeStarts;
    var n := |records| - 1;
    assert LastClose(records) == LastClose(records[..n]);
    SomeAppend(records, LastClose(records[..n]));
    OrderAppend(records, LastClose(records[..n]));
  }

  lemma OrderAppend(records: seq<Record>, from: nat)
    requires records != [] && from < |records|
    requires !IsToolStart(records[|records| - 1]) && !IsToolFinish(records[|records| - 1])
    ensures FinishesBeforeStarts(records, from) <==> FinishesBeforeStarts(records[..|records| - 1], from)
  {
    hide IsToolStart, IsToolFinish;
    var before := records[..|records| - 1];
    assert forall i :: 0 <= i < |before| ==> before[i] == records[i];
  }

  /** Exact condition: no step of a turn ends a phase before the phase starts, unless after the last closing item
      every finish came before every start, and then the last tool phase runs backwards. */
  lemma PhasesOrderedIff(records: seq<Record>)
    requires IsTurn(records)
    ensures PhasesOrdered(Steps(records)) <==> !EndsBeforeItStarts(records)
  {
    hide IsOpenTurn, EndsBeforeItStarts, PhasesOrdered, ClosesBackwards, Ordered, Consumed, Finished;
    var n := |records| - 1;
    ScanOrdered(records[..n]);
    FinishedOrderedIff(ScanAll(records[..n]), records[n - 1].timestamp, records[n]);
    BackwardsIff(records[..n]);
    CompletionKeepsOrder(records);
  }

  lemma {:induction false} NoCloseWithoutModelItem(records: seq<Record>)
    requires forall i :: 0 <= i < |records| ==> !IsModelItemStart(records[i])
    ensures LastClose(records) == 0
  {
    hide IsModelItemStart;
    if records != [] {
      NoCloseWithoutModelItem(records[..|records| - 1]);
    }
  }

  /** An input that has it: a tool of an earlier turn is interrupted, then a tool starts and never finishes. */
  lemma StrayFinishRunsBackwards(stray: Tool, tool: Tool, start: int, finish: int, begin: int, end: int)
    requires start <= finish < begin <= end
    ensures var records := [
              Record("turn.started", start, None, ""), Record("item.interrupted", finish, Some(stray), ""),
              Record("item.started", begin, Some(tool), ""), Record("turn.completed", end, None, "")];
            IsTurn(records) && !PhasesOrdered(Steps(records))
  {
    hide Steps, PhasesOrdered, MsBetween, LastClose;
    var records := [
      Record("turn.started", start, None, ""), Record("item.interrupted", finish, Some(stray), ""),
      Record("item.started", begin, Some(tool), ""), Record("turn.completed", end, None, "")];
    assert IsToolFinish(records[1]) && IsToolStart(records[2]);
    assert !IsToolStart(records[0]) && !IsToolStart(records[1]) && !IsToolStart(records[3]);
    assert !IsToolFinish(records[0]) && !IsToolFinish(records[2]) && !IsToolFinish(records[3]);
    NoCloseWithoutModelItem(records);
    assert EndsBeforeItStarts(records);
    PhasesOrderedIff(records);
  }

  lemma ClosedByFinish(records: seq<Record>)
    requires IsTurn(records) && OpenIds(records) == {}
    ensures !EndsInUnfinishedBatch(records) && !EndsBeforeItStarts(records)
  {
    hide Contains, Consumed, IsOpenTurn, EndsInUnfinishedBatch, EndsBeforeItStarts, PhasesOrdered;
    var n := |records| - 1;
    assert OpenIds(records[..n]) == {};
    ScanOrdered(records[..n]);
    ScanBatch(records[..n]);
    CompletionKeepsBatch(records);
    BackwardsIff(records[..n]);
    CompletionKeepsOrder(records);
  }

  /** When every started tool has finished since, whatever other finishes there are and however ids repeat, every
      started tool is reported, in order, and no phase is negative, exact or reported. */
  lemma FinishedToolsAreReported(records: seq<Record>)
    requires IsTurn(records) && OpenIds(records) == {}
    ensures ReportedTools(Steps(records)) == StartedTools(records)
    ensures PhasesOrdered(Steps(records))
    ensures forall i :: 0 <= i < |Steps(records)| ==>
              Steps(records)[i].modelPhase >= 0 && Steps(records)[i].toolPhase >= 0 && Steps(records)[i].total >= 0
  {
    hide MsBetween, IsOpenTurn, OpenIds, EndsInUnfinishedBatch, EndsBeforeItStarts, ReportedTools, Steps;
    var steps := Steps(records);
    ClosedByFinish(records);
    ToolsAreConservedIff(records);
    PhasesOrderedIff(records);
    StepsTileTurn(records);
    forall i | 0 <= i < |steps|
      ensures steps[i].modelPhase >= 0 && steps[i].toolPhase >= 0 && steps[i].total >= 0
    {
      TileAt(steps, records[0].timestamp, records[|records| - 1].timestamp, i);
    }
  }

  // ---- What the records say, told from their fields ----

  function IdOf(r: Record): string {
    if r.tool.Some? && r.tool.value.id.Some? then r.tool.value.id.value else ""
  }

  predicate StartsTool(r: Record, id: string) {
    r.event == "item.started" && r.tool.Some? && IdOf(r) == id
  }

  predicate EndsTool(r: Record, id: string) {
    && (r.event == "item.completed" || r.event == "item.failed" || r.event == "item.interrupted")
    && r.tool.Some? && IdOf(r) == id
  }

  /** A tool is open exactly when it started and, however items end, none of its id has ended since. */
  lemma {:induction false} OpenIff(records: seq<Record>, id: string)
    ensures id in OpenIds(records) <==>
              exists i :: 0 <= i < |records| && StartsTool(records[i], id)
                          && forall j :: i < j < |records| ==> !EndsTool(records[j], id)
  {
    hide StartsTool, EndsTool;
    if records != [] {
      var n := |records| - 1;
      var before := records[..n];
      OpenIff(before, id);
      OpenStep(records, id);
      assert forall i :: 0 <= i < n ==> before[i] == records[i];
      if id in OpenIds(before) {
        var i :| 0 <= i < n && StartsTool(before[i], id) && forall j :: i < j < n ==> !EndsTool(before[j], id);
        assert StartsTool(records[i], id);
        assert !EndsTool(records[n], id) ==> forall j :: i < j < |records| ==> !EndsTool(records[j], id);
      }
      if i :| 0 <= i < |records| && StartsTool(records[i], id)
              && forall j :: i < j < |records| ==> !EndsTool(records[j], id)
      {
        assert i < n ==> StartsTool(before[i], id) && forall j :: i < j < n ==> !EndsTool(before[j], id);
      }
    }
  }

  lemma OpenStep(records: seq<Record>, id: string)
    requires records != []
    ensures var last := records[|records| - 1];
            id in OpenIds(records) <==>
              StartsTool(last, id) || (id in OpenIds(records[..|records| - 1]) && !EndsTool(last, id))
  {
  }

  /** The names reported are those of the tool starts, in order; a missing or empty name is reported as unknown. */
  lemma StartedAppend(records: seq<Record>, r: Record)
    ensures StartedTools(records + [r]) == StartedTools(records)
              + (if r.event != "item.started" || r.tool.None? then []
                 else if r.tool.value.name.None? || r.tool.value.name.value == "" then ["unknown"]
                 else [r.tool.value.name.value])
  {
    assert (records + [r])[..|records|] == records;
  }

  /** A model item: an item that starts without a tool and whose kind has `message` or `thinking` somewhere. */
  ghost predicate StartsModelItem(r: Record) {
    && r.event == "item.started" && r.tool.None?
    && exists k: nat :: StandsAt(r.itemKind, "message", k) || StandsAt(r.itemKind, "thinking", k)
  }

  lemma ModelItemIff(r: Record)
    ensures IsModelItemStart(r) <==> StartsModelItem(r)
  {
    hide Contains, StandsAt;
    ContainsIff(r.itemKind, "message");
    ContainsIff(r.itemKind, "thinking");
  }

  /** The kinds the runtime sends. */
  lemma KindsOfModelItems(r: Record)
    requires r.event == "item.started" && r.tool.None? && r.itemKind in ["agent_message", "thinking"]
    ensures IsModelItemStart(r)
  {
    hide Contains;
    ModelItemIff(r);
    if r.itemKind == "agent_message" {
      assert StandsAt("agent_message", "message", 6);
    } else {
      assert StandsAt("thinking", "thinking", 0);
    }
  }

  // ---- Where steps part ----

  /** The steps closed so far, while the turn goes on. */
  ghost function ClosedSteps(records: seq<Record>): seq<Segment> {
    ScanAll(records).steps
  }

  lemma ConsumedSteps(s: Scan, r: Record)
    requires s.stepStart.Some?
    ensures s.steps <= Consumed(s, r).steps
    ensures |Consumed(s, r).steps| == |s.steps| + if IsModelItemStart(r) && s.batchFirstStart.Some?
                                                     && s.openToolIds == {} && s.batchLastEnd.Some? then 1 else 0
  {
    hide MsBetween, Contains;
  }

  /** Exact: a record closes a step if and only if it is a model item that comes when a tool of the step has started,
      one has finished, and none is open. Any other record leaves the batch as it is. */
  lemma ClosesStepIff(records: seq<Record>, r: Record)
    requires IsOpenTurn(records + [r]) && records != []
    ensures ClosedSteps(records) <= ClosedSteps(records + [r])
    ensures |ClosedSteps(records + [r])| == |ClosedSteps(records)| + 1 <==>
              && StartsModelItem(r) && OpenIds(records) == {}
              && SomeStart(records, LastClose(records)) && SomeFinish(records, LastClose(records))
    ensures |ClosedSteps(records + [r])| != |ClosedSteps(records)| + 1 ==>
              ClosedSteps(records + [r]) == ClosedSteps(records)
  {
    hide IsOpenTurn, Consumed, StartsModelItem, SomeStart, SomeFinish, IsModelItemStart;
    assert (records + [r])[..|records|] == records;
    OpenPrefix(records, r);
    ScanBatch(records);
    ModelItemIff(r);
    ConsumedSteps(ScanAll(records), r);
  }

  lemma OpenPrefix(records: seq<Record>, r: Record)
    requires IsOpenTurn(records + [r]) && records != []
    ensures IsOpenTurn(records)
  {
    OpenTurnPrefix(records + [r]);
    assert (records + [r])[..|records|] == records;
  }

  /** A model item that comes when no tool is open parts the turn: every tool started before it is in a closed step, and
      none is left for a later one. */
  lemma ModelItemParts(records: seq<Record>, r: Record)
    requires IsOpenTurn(records + [r]) && records != []
    requires StartsModelItem(r) && OpenIds(records) == {}
    ensures ReportedTools(ClosedSteps(records + [r])) == StartedTools(records)
  {
    hide IsOpenTurn, StartsModelItem, OpenIds, IsModelItemStart, ReportedTools, StartedTools, IsToolStart, IsToolFinish;
    assert (records + [r])[..|records|] == records;
    OpenPrefix(records, r);
    ScanBatch(records);
    ScanOrdered(records);
    ScanKeepsTools(records);
    ScanKeepsTools(records + [r]);
    ModelItemIff(r);
    ModelItemStartsNothing(records, r);
    ClosedAccounts(ScanAll(records));
  }

  lemma ModelItemStartsNothing(records: seq<Record>, r: Record)
    requires StartsModelItem(r)
    ensures StartedTools(records + [r]) == StartedTools(records)
    ensures !IsToolStart(r) && !IsToolFinish(r) && r.event != "turn.started"
  {
    StartedAppend(records, r);
  }

  /** Closed steps stay. */
  lemma {:induction false} ClosedStepsStay(records: seq<Record>, m: nat)
    requires IsOpenTurn(records) && 0 < m <= |records|
    ensures ClosedSteps(records[..m]) <= ClosedSteps(records)
    decreases |records|
  {
    hide IsOpenTurn, Consumed;
    var n := |records| - 1;
    if m == |records| {
      assert records[..m] == records;
    } else {
      assert records[..n][..m] == records[..m];
      OpenTurnPrefix(records);
      ClosedStepsStay(records[..n], m);
      ScanBatch(records[..n]);
      ConsumedSteps(ScanAll(records[..n]), records[n]);
    }
  }

  lemma FinishedKeepsSteps(s: Scan, done: Record)
    requires s.stepStart.Some? && done.event == "turn.completed"
    ensures s.steps <= Finished(Consumed(s, done)).steps
  {
    hide MsBetween, Contains, Consumed;
    CompletionSetsEnd(s, done);
  }

  /** In the report of a whole turn the steps part at every model item that comes when no tool is open: the tools that
      started before it fill the steps closed by then, and no later step has one of them. */
  lemma StepsPartAtModelItems(records: seq<Record>, m: nat)
    requires IsTurn(records) && 0 < m < |records| - 1
    requires StartsModelItem(records[m]) && OpenIds(records[..m]) == {}
    ensures var k := |ClosedSteps(records[..m + 1])|;
            k <= |Steps(records)| && ReportedTools(Steps(records)[..k]) == StartedTools(records[..m])
  {
    hide IsOpenTurn, StartsModelItem, OpenIds, ReportedTools, StartedTools, Consumed, Finished;
    var n := |records| - 1;
    var turn := records[..n];
    assert turn[..m + 1] == records[..m + 1] == records[..m] + [records[m]];
    PrefixIsOpen(turn, m + 1);
    ModelItemParts(records[..m], records[m]);
    ClosedStepsStay(turn, m + 1);
    ScanBatch(turn);
    FinishedKeepsSteps(ScanAll(turn), records[n]);
    var closed := ClosedSteps(records[..m + 1]);
    assert closed <= Steps(records);
    assert Steps(records)[..|closed|] == closed;
  }

  lemma {:induction false} PrefixIsOpen(records: seq<Record>, m: nat)
    requires IsOpenTurn(records) && 0 < m <= |records|
    ensures IsOpenTurn(records[..m])
  {
  }

  /** Two tools parted by an agent message are reported in two steps. */
  lemma AgentMessagePartsTools(a: Tool, b: Tool)
    requires a.id.Some? && b.id.Some? && a.name.Some? && a.name.value != ""
    ensures var records := [
              Record("turn.started", 0, None, ""),
              Record("item.started", 100, Some(a), ""), Record("item.completed", 200, Some(a), ""),
              Record("item.started", 300, None, "agent_message"),
              Record("item.started", 400, Some(b), ""), Record("item.completed", 500, Some(b), ""),
              Record("turn.completed", 600, None, "")];
            && IsTurn(records)
            && var k := |ClosedSteps(records[..4])|;
               k <= |Steps(records)| && ReportedTools(Steps(records)[..k]) == [a.name.value]
  {
    hide Steps, ReportedTools, ClosedSteps, Contains, MsBetween, ScanAll;
    var records := [
      Record("turn.started", 0, None, ""),
      Record("item.started", 100, Some(a), ""), Record("item.completed", 200, Some(a), ""),
      Record("item.started", 300, None, "agent_message"),
      Record("item.started", 400, Some(b), ""), Record("item.completed", 500, Some(b), ""),
      Record("turn.completed", 600, None, "")];
    assert StandsAt("agent_message", "message", 6);
    OneToolRun(records[0], records[1], records[2], a);
    assert records[..3] == [records[0], records[1], records[2]];
    StepsPartAtModelItems(records, 3);
  }

  lemma OneToolRun(first: Record, start: Record, end: Record, a: Tool)
    requires first.event == "turn.started" && start.event == "item.started" && end.event == "item.completed"
    requires start.tool == end.tool == Some(a) && a.name.Some? && a.name.value != ""
    ensures OpenIds([first, start, end]) == {}
    ensures StartedTools([first, start, end]) == [a.name.value]
  {
    var one, two, three := [first], [first, start], [first, start, end];
    assert three[..2] == two && two[..1] == one && one[..0] == [];
    assert OpenIds(one) == {} && StartedTools(one) == [];
    assert OpenIds(two) == {ToolId(a)} && StartedTools(two) == [a.name.value];
  }
}
