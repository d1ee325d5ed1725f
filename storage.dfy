/** The persistence and analytics store (src/utils/storage.js). Four stored
    resources (theme, custom workflows, analytics, settings) live in one
    `Store` object; each getter supplies the default for a missing entry. The
    analytics fold, the merge-by-id used by save and import, the deletion
    filter and the CSV rendering are specified by the functions below and
    implemented step by step by the store's methods. */
module Storage {
  import opened Common
  import opened Text
  import opened Workflows

  datatype WorkflowStat = WorkflowStat(runs: nat, successful: nat, failed: nat, totalSteps: nat, totalDuration: int)

  datatype HistoryEntry = HistoryEntry(workflowId: string, success: bool, stepsCompleted: nat, duration: int, timestamp: string)

  /** `workflowStats` keeps the insertion order of a JavaScript object, so it
      is a sequence of (workflow id, stats) pairs rather than a map. */
  datatype Analytics = Analytics(
    totalRuns: nat,
    successfulRuns: nat,
    failedRuns: nat,
    totalStepsCompleted: nat,
    averageDuration: int,
    workflowStats: seq<(string, WorkflowStat)>,
    executionHistory: seq<HistoryEntry>)

  /** The record `updateAnalytics` receives for one finished run. */
  datatype RunOutcome = RunOutcome(workflowId: string, success: bool, stepsCompleted: nat, duration: int)

  /** Missing boolean settings read as false, as `undefined` does in the source. */
  datatype Settings = Settings(
    defaultSpeed: string,
    autoSave: bool,
    showNotifications: bool,
    enableKeyboardShortcuts: bool,
    enableStepFailure: bool)

  const HistoryLimit: nat := 50
  const ZeroStat := WorkflowStat(0, 0, 0, 0, 0)
  const ZeroAnalytics := Analytics(0, 0, 0, 0, 0, [], [])
  const DefaultTheme := "dark"
  const DefaultSettings := Settings("normal", true, true, false, false)
  const ExportVersion := "1.0.0"
  const InvalidFormatMessage := "Invalid workflow file format"
  const ImportedMessage := "Workflows imported successfully"

  // ---------------------------------------------------------------------------
  // Rounding

  /** `Math.round(a / b)` for a positive divisor. */
  function RoundDiv(a: int, b: int): int
    requires b > 0
  {
    (2 * a + b) / (2 * b)
  }

  /** `RoundDiv(a, b)` is the integer nearest to a / b, halves rounded up. */
  lemma RoundDivNearest(a: int, b: int)
    requires b > 0
    ensures 2 * b * RoundDiv(a, b) - b <= 2 * a < 2 * b * RoundDiv(a, b) + b
  {
    var q, m := (2 * a + b) / (2 * b), (2 * a + b) % (2 * b);
    assert 2 * a + b == 2 * b * q + m && 0 <= m < 2 * b;
  }

  lemma RoundDivByOne(a: int)
    ensures RoundDiv(a, 1) == a
  {
    assert (2 * a + 1) / 2 == a;
  }

  /** The running mean after one more run, weighting the old mean by the
      number of runs before this one. */
  function NextAverage(average: int, runsBefore: nat, duration: int): int {
    RoundDiv(average * runsBefore + duration, runsBefore + 1)
  }

  /** The new mean is the old total plus the new duration, divided by the new
      count and rounded to the nearest integer. */
  lemma NextAverageRounds(average: int, runsBefore: nat, duration: int)
    ensures var n, r := runsBefore + 1, NextAverage(average, runsBefore, duration);
      2 * n * r - n <= 2 * (average * runsBefore + duration) < 2 * n * r + n
  {
    var total, n := average * runsBefore + duration, runsBefore + 1;
    RoundDivNearest(total, n);
    assert NextAverage(average, runsBefore, duration) == RoundDiv(total, n);
  }

  /** The first run's mean is its own duration, whatever the stored mean. */
  lemma FirstAverage(average: int, duration: int)
    ensures NextAverage(average, 0, duration) == duration
  {
    assert average * 0 + duration == duration;
    RoundDivByOne(duration);
  }

  // ---------------------------------------------------------------------------
  // Per-workflow statistics

  function StatKeys(stats: seq<(string, WorkflowStat)>): (keys: seq<string>)
    ensures |keys| == |stats| && forall i :: 0 <= i < |stats| ==> keys[i] == stats[i].0
  {
    seq(|stats|, i requires 0 <= i < |stats| => stats[i].0)
  }

  /** `workflowStats[id]`, a missing entry read as all zeros. */
  function StatFor(stats: seq<(string, WorkflowStat)>, id: string): WorkflowStat {
    var k := IndexOf(StatKeys(stats), id);
    if k < 0 then ZeroStat else stats[k].1
  }

  /** One more run counted into a workflow's stats. */
  function Bump(st: WorkflowStat, o: RunOutcome): WorkflowStat {
    WorkflowStat(
      st.runs + 1,
      st.successful + (if o.success then 1 else 0),
      st.failed + (if o.success then 0 else 1),
      st.totalSteps + o.stepsCompleted,
      st.totalDuration + o.duration)
  }

  /** The entry for the run's workflow is created (appended, zeroed) when
      missing, then bumped. */
  function BumpStats(stats: seq<(string, WorkflowStat)>, o: RunOutcome): seq<(string, WorkflowStat)> {
    var k := IndexOf(StatKeys(stats), o.workflowId);
    if k < 0 then stats + [(o.workflowId, Bump(ZeroStat, o))]
    else stats[k := (o.workflowId, Bump(stats[k].1, o))]
  }

  /** After `BumpStats`, the run's workflow reads as its old stats bumped and
      every other workflow reads as before. */
  lemma BumpStatsLookup(stats: seq<(string, WorkflowStat)>, o: RunOutcome, id: string)
    ensures StatFor(BumpStats(stats, o), id) ==
      if id == o.workflowId then Bump(StatFor(stats, id), o) else StatFor(stats, id)
  {
    var keys := StatKeys(stats);
    var r := BumpStats(stats, o);
    BumpStatsKeys(stats, o);
    if IndexOf(keys, o.workflowId) < 0 {
      if id == o.workflowId {
        assert IndexOf(StatKeys(r), id) == |stats|;
      } else {
        IndexOfAppendOther(keys, o.workflowId, id);
      }
    }
  }

  /** `BumpStats` keeps every key where it was and appends the run's
      workflow id when it was missing. */
  lemma BumpStatsKeys(stats: seq<(string, WorkflowStat)>, o: RunOutcome)
    ensures StatKeys(BumpStats(stats, o)) ==
      if o.workflowId in StatKeys(stats) then StatKeys(stats) else StatKeys(stats) + [o.workflowId]
  {
    var keys := StatKeys(stats);
    if IndexOf(keys, o.workflowId) < 0 {
      assert StatKeys(BumpStats(stats, o)) == keys + [o.workflowId];
    } else {
      assert StatKeys(BumpStats(stats, o)) == keys;
    }
  }

  /** The per-workflow part of `updateAnalytics`: a zeroed entry is added
      for a workflow seen for the first time, then its entry is counted. */
  method EnterStats(stats: seq<(string, WorkflowStat)>, o: RunOutcome) returns (r: seq<(string, WorkflowStat)>)
    ensures r == BumpStats(stats, o)
  {
    r := stats;
    var k := IndexOf(StatKeys(r), o.workflowId);
    if k < 0 {
      r := r + [(o.workflowId, ZeroStat)];
      k := |r| - 1;
    }
    var st := CountRun(r[k].1, o);
    r := r[k := (o.workflowId, st)];
    BumpStatsInPlace(stats, o);
  }

  /** One workflow's stats updated field by field for one more run. */
  method CountRun(st: WorkflowStat, o: RunOutcome) returns (r: WorkflowStat)
    ensures r == Bump(st, o)
    ensures r.runs == st.runs + 1 && r.successful + r.failed == st.successful + st.failed + 1
  {
    r := st;
    r := r.(runs := r.runs + 1);
    if o.success {
      r := r.(successful := r.successful + 1);
    } else {
      r := r.(failed := r.failed + 1);
    }
    r := r.(totalSteps := r.totalSteps + o.stepsCompleted);
    r := r.(totalDuration := r.totalDuration + o.duration);
  }

  /** `BumpStats` as the source performs it: a zeroed entry is appended
      for a new id, then the entry of that id is bumped where it stands. */
  lemma BumpStatsInPlace(stats: seq<(string, WorkflowStat)>, o: RunOutcome)
    ensures var k := IndexOf(StatKeys(stats), o.workflowId);
      var entered := if k < 0 then stats + [(o.workflowId, ZeroStat)] else stats;
      var j := if k < 0 then |stats| else k;
      BumpStats(stats, o) == entered[j := (o.workflowId, Bump(entered[j].1, o))]
  {
    var k := IndexOf(StatKeys(stats), o.workflowId);
    if k < 0 {
      assert (stats + [(o.workflowId, ZeroStat)])[|stats| := (o.workflowId, Bump(ZeroStat, o))]
        == stats + [(o.workflowId, Bump(ZeroStat, o))];
    }
  }

  function Runs(st: WorkflowStat): int { st.runs }
  function Steps(st: WorkflowStat): int { st.totalSteps }

  /** The sum of one field over all per-workflow stats. */
  function SumOf(stats: seq<(string, WorkflowStat)>, field: WorkflowStat -> int): int {
    if stats == [] then 0 else SumOf(stats[..|stats| - 1], field) + field(stats[|stats| - 1].1)
  }

  lemma {:induction false} SumOfUpdate(stats: seq<(string, WorkflowStat)>, k: int, e: (string, WorkflowStat), field: WorkflowStat -> int)
    requires 0 <= k < |stats|
    ensures SumOf(stats[k := e], field) == SumOf(stats, field) - field(stats[k].1) + field(e.1)
  {
    var n := |stats|;
    if k == n - 1 {
      assert stats[k := e][..n - 1] == stats[..n - 1];
    } else {
      assert stats[k := e][..n - 1] == stats[..n - 1][k := e];
      SumOfUpdate(stats[..n - 1], k, e, field);
    }
  }

  lemma SumOfAppend(stats: seq<(string, WorkflowStat)>, e: (string, WorkflowStat), field: WorkflowStat -> int)
    ensures SumOf(stats + [e], field) == SumOf(stats, field) + field(e.1)
  {
    assert (stats + [e])[..|stats|] == stats;
  }

  // ---------------------------------------------------------------------------
  // The analytics fold

  /** The most recent `n` elements of `s` (`s.slice(-n)` when longer than `n`). */
  function LastN<T>(s: seq<T>, n: nat): (r: seq<T>)
    ensures |r| == if |s| <= n then |s| else n
    ensures r == s[|s| - |r|..]
  {
    if |s| > n then s[|s| - n..] else s
  }

  /** Keeping the last n after each append is keeping the last n at the end. */
  lemma LastNAppend<T>(s: seq<T>, e: T, n: nat)
    requires n > 0
    ensures LastN(LastN(s, n) + [e], n) == LastN(s + [e], n)
  {
    var t := LastN(s, n) + [e];
    assert t == (s + [e])[|s| - |LastN(s, n)|..];
  }

  function HistoryEntryOf(o: RunOutcome, timestamp: string): HistoryEntry {
    HistoryEntry(o.workflowId, o.success, o.stepsCompleted, o.duration, timestamp)
  }

  /** The history part of `updateAnalytics`: push the entry, then keep
      only the last 50 when the history has grown past them. */
  method PushHistory(history: seq<HistoryEntry>, e: HistoryEntry) returns (h: seq<HistoryEntry>)
    ensures h == LastN(history + [e], HistoryLimit)
  {
    h := history + [e];
    if |h| > HistoryLimit {
      h := h[|h| - HistoryLimit..];
    }
  }

  /** The counting part of `updateAnalytics`, field by field. */
  method CountIntoSnapshot(prev: Analytics, o: RunOutcome, timestamp: string) returns (r: Analytics)
    ensures r == RecordRun(prev, o, timestamp)
  {
    var totalRuns := prev.totalRuns + 1;
    var successfulRuns, failedRuns := prev.successfulRuns, prev.failedRuns;
    if o.success {
      successfulRuns := successfulRuns + 1;
    } else {
      failedRuns := failedRuns + 1;
    }
    var totalSteps := prev.totalStepsCompleted + o.stepsCompleted;

    var stats := EnterStats(prev.workflowStats, o);
    var history := PushHistory(prev.executionHistory, HistoryEntryOf(o, timestamp));
    assert totalRuns - 1 == prev.totalRuns;
    var average := RoundDiv(prev.averageDuration * (totalRuns - 1) + o.duration, totalRuns);
    assert average == NextAverage(prev.averageDuration, prev.totalRuns, o.duration);
    r := Analytics(totalRuns, successfulRuns, failedRuns, totalSteps, average, stats, history);
  }

  /** The analytics snapshot after one more run. */
  function RecordRun(a: Analytics, o: RunOutcome, timestamp: string): (r: Analytics)
    ensures r.totalRuns == a.totalRuns + 1
    ensures (r.successfulRuns - a.successfulRuns) + (r.failedRuns - a.failedRuns) == 1
    ensures r.successfulRuns == a.successfulRuns + 1 <==> o.success
    ensures r.failedRuns >= a.failedRuns && r.successfulRuns >= a.successfulRuns
    ensures r.totalStepsCompleted == a.totalStepsCompleted + o.stepsCompleted
    ensures r.workflowStats == BumpStats(a.workflowStats, o)
  {
    Analytics(
      a.totalRuns + 1,
      a.successfulRuns + (if o.success then 1 else 0),
      a.failedRuns + (if o.success then 0 else 1),
      a.totalStepsCompleted + o.stepsCompleted,
      NextAverage(a.averageDuration, a.totalRuns, o.duration),
      BumpStats(a.workflowStats, o),
      LastN(a.executionHistory + [HistoryEntryOf(o, timestamp)], HistoryLimit))
  }

  /** The history gains the new outcome at its end and, once it holds 50
      entries, loses its oldest one. */
  lemma RecordRunHistory(a: Analytics, o: RunOutcome, timestamp: string)
    ensures var h, h' := a.executionHistory, RecordRun(a, o, timestamp).executionHistory;
      && |h'| == (if |h| < HistoryLimit then |h| + 1 else HistoryLimit)
      && h'[|h'| - 1] == HistoryEntryOf(o, timestamp)
      && h'[..|h'| - 1] == h[|h| - (|h'| - 1)..]
  {
    var h := RecordRun(a, o, timestamp).executionHistory;
    assert h[..|h| - 1] == a.executionHistory[|a.executionHistory| - (|h| - 1)..];
  }

  /** Per-workflow keys are unique and each workflow's runs split into
      successes and failures. */
  ghost predicate StatsConsistent(stats: seq<(string, WorkflowStat)>) {
    && Distinct(StatKeys(stats))
    && forall k :: 0 <= k < |stats| ==> stats[k].1.successful + stats[k].1.failed == stats[k].1.runs
  }

  /** The bookkeeping every snapshot built by the fold satisfies. */
  ghost predicate Consistent(a: Analytics) {
    && a.successfulRuns + a.failedRuns == a.totalRuns
    && |a.executionHistory| <= HistoryLimit
    && StatsConsistent(a.workflowStats)
    && SumOf(a.workflowStats, Runs) == a.totalRuns
    && SumOf(a.workflowStats, Steps) == a.totalStepsCompleted
  }

  lemma ZeroConsistent()
    ensures Consistent(ZeroAnalytics)
  {
  }

  /** Bumping one workflow's stats keeps them consistent and adds the run to
      the per-workflow sums. */
  lemma BumpStatsConsistent(stats: seq<(string, WorkflowStat)>, o: RunOutcome)
    requires StatsConsistent(stats)
    ensures StatsConsistent(BumpStats(stats, o))
    ensures SumOf(BumpStats(stats, o), Runs) == SumOf(stats, Runs) + 1
    ensures SumOf(BumpStats(stats, o), Steps) == SumOf(stats, Steps) + o.stepsCompleted
  {
    var keys := StatKeys(stats);
    var k := IndexOf(keys, o.workflowId);
    var r := BumpStats(stats, o);
    if k < 0 {
      var e := (o.workflowId, Bump(ZeroStat, o));
      assert r == stats + [e];
      SumOfAppend(stats, e, Runs);
      SumOfAppend(stats, e, Steps);
      BumpStatsKeys(stats, o);
    } else {
      var e := (o.workflowId, Bump(stats[k].1, o));
      assert r == stats[k := e];
      SumOfUpdate(stats, k, e, Runs);
      SumOfUpdate(stats, k, e, Steps);
      BumpStatsKeys(stats, o);
    }
  }

  /** The fold keeps every consistency fact: totals agree with the counters and
      with the per-workflow sums, keys stay unique, the history stays bounded. */
  lemma RecordRunConsistent(a: Analytics, o: RunOutcome, timestamp: string)
    requires Consistent(a)
    ensures Consistent(RecordRun(a, o, timestamp))
  {
    BumpStatsConsistent(a.workflowStats, o);
  }

  /** Several runs folded in order. */
  function RecordAll(a: Analytics, runs: seq<(RunOutcome, string)>): Analytics {
    if runs == [] then a
    else
      var last := runs[|runs| - 1];
      RecordRun(RecordAll(a, runs[..|runs| - 1]), last.0, last.1)
  }

  function HistoryEntries(runs: seq<(RunOutcome, string)>): (es: seq<HistoryEntry>)
    ensures |es| == |runs|
  {
    if runs == [] then []
    else
      var last := runs[|runs| - 1];
      HistoryEntries(runs[..|runs| - 1]) + [HistoryEntryOf(last.0, last.1)]
  }

  function Successes(runs: seq<(RunOutcome, string)>): nat {
    if runs == [] then 0 else Successes(runs[..|runs| - 1]) + (if runs[|runs| - 1].0.success then 1 else 0)
  }

  /** Whatever the number of runs, the history holds the 50 most recent
      outcomes in order: after 51 runs the first is gone and the 51st is last.
      This holds from any snapshot once a run is recorded; with no runs the
      history is untouched, which is its last 50 only when it is that short. */
  lemma {:induction false} RecordAllHistory(a: Analytics, runs: seq<(RunOutcome, string)>)
    ensures runs != [] || |a.executionHistory| <= HistoryLimit ==>
      RecordAll(a, runs).executionHistory == LastN(a.executionHistory + HistoryEntries(runs), HistoryLimit)
  {
    if runs == [] {
      assert a.executionHistory + HistoryEntries(runs) == a.executionHistory;
    } else {
      var n := |runs|;
      var prefix := runs[..n - 1];
      var before := a.executionHistory + HistoryEntries(prefix);
      var e := HistoryEntryOf(runs[n - 1].0, runs[n - 1].1);
      var prev := RecordAll(a, prefix);
      assert RecordAll(a, runs).executionHistory == LastN(prev.executionHistory + [e], HistoryLimit) by {
        assert RecordAll(a, runs) == RecordRun(prev, runs[n - 1].0, runs[n - 1].1);
      }
      assert a.executionHistory + HistoryEntries(runs) == before + [e] by {
        assert HistoryEntries(runs) == HistoryEntries(prefix) + [e];
      }
      if prefix == [] {
        assert prev == a;
        assert before == a.executionHistory;
      } else {
        RecordAllHistory(a, prefix);
        LastNAppend(before, e, HistoryLimit);
      }
    }
  }

  /** The counters of a sequence of runs depend only on how many runs there
      were and how many of them succeeded, not on their order. */
  lemma {:induction false} RecordAllCounters(a: Analytics, runs: seq<(RunOutcome, string)>)
    ensures RecordAll(a, runs).totalRuns == a.totalRuns + |runs|
    ensures RecordAll(a, runs).successfulRuns == a.successfulRuns + Successes(runs)
    ensures RecordAll(a, runs).failedRuns == a.failedRuns + |runs| - Successes(runs)
  {
    if runs != [] {
      RecordAllCounters(a, runs[..|runs| - 1]);
    }
  }

  /** Two runs recorded in either order give the same counters and the same
      stats for every workflow (only the key order and the mean may differ). */
  lemma RecordRunCommutes(a: Analytics, o1: RunOutcome, t1: string, o2: RunOutcome, t2: string)
    ensures var x, y := RecordRun(RecordRun(a, o1, t1), o2, t2), RecordRun(RecordRun(a, o2, t2), o1, t1);
      && x.totalRuns == y.totalRuns
      && x.successfulRuns == y.successfulRuns
      && x.failedRuns == y.failedRuns
      && x.totalStepsCompleted == y.totalStepsCompleted
      && forall id :: StatFor(x.workflowStats, id) == StatFor(y.workflowStats, id)
  {
    var x, y := RecordRun(RecordRun(a, o1, t1), o2, t2), RecordRun(RecordRun(a, o2, t2), o1, t1);
    var s12 := BumpStats(BumpStats(a.workflowStats, o1), o2);
    var s21 := BumpStats(BumpStats(a.workflowStats, o2), o1);
    assert x.workflowStats == s12 && y.workflowStats == s21;
    forall id ensures StatFor(s12, id) == StatFor(s21, id) {
      BumpStatsSwap(a.workflowStats, o1, o2, id);
    }
  }

  lemma BumpStatsSwap(stats: seq<(string, WorkflowStat)>, o1: RunOutcome, o2: RunOutcome, id: string)
    ensures StatFor(BumpStats(BumpStats(stats, o1), o2), id) == StatFor(BumpStats(BumpStats(stats, o2), o1), id)
  {
    var s1, s2 := BumpStats(stats, o1), BumpStats(stats, o2);
    BumpStatsLookup(stats, o1, id);
    BumpStatsLookup(stats, o2, id);
    BumpStatsLookup(s1, o2, id);
    BumpStatsLookup(s2, o1, id);
  }

  /** The running mean does depend on order: durations 1, 0, 0 average to 1,
      while 0, 0, 1 average to 0. */
  lemma AverageDependsOnOrder()
    ensures NextAverage(NextAverage(NextAverage(0, 0, 1), 1, 0), 2, 0) == 1
    ensures NextAverage(NextAverage(NextAverage(0, 0, 0), 1, 0), 2, 1) == 0
  {
    var x1 := NextAverage(0, 0, 1);
    assert x1 == 1 by {}
    var x2 := NextAverage(x1, 1, 0);
    assert x2 == 1 by {}
    var x3 := NextAverage(x2, 2, 0);
    assert x3 == 1 by {}
    var y1 := NextAverage(0, 0, 0);
    assert y1 == 0 by {}
    var y2 := NextAverage(y1, 1, 0);
    assert y2 == 0 by {}
    var y3 := NextAverage(y2, 2, 1);
    assert y3 == 0 by {}
  }

  // ---------------------------------------------------------------------------
  // Custom workflows: upsert, merge, delete

  /** `saveCustomWorkflow`'s placement: the first entry with the same id is
      replaced in place, otherwise the workflow is appended. */
  function Upsert(ws: seq<Workflow>, w: Workflow): (r: seq<Workflow>)
    ensures Ids(r) == if w.id in Ids(ws) then Ids(ws) else Ids(ws) + [w.id]
    ensures w.id in Ids(ws) ==> r[IndexOf(Ids(ws), w.id)] == w
    ensures w.id !in Ids(ws) ==> r[|ws|] == w
    ensures forall j :: 0 <= j < |ws| && ws[j].id != w.id ==> r[j] == ws[j]
  {
    var k := IndexOf(Ids(ws), w.id);
    if k >= 0 then
      var r := ws[k := w];
      assert Ids(r) == Ids(ws);
      r
    else
      var r := ws + [w];
      assert Ids(r) == Ids(ws) + [w.id];
      r
  }

  /** The import merge: incoming workflows upserted one after another. */
  function Merge(existing: seq<Workflow>, incoming: seq<Workflow>): (r: seq<Workflow>)
    ensures |existing| <= |r|
    ensures Ids(r)[..|existing|] == Ids(existing)
  {
    if incoming == [] then existing
    else
      var n := |incoming|;
      Upsert(Merge(existing, incoming[..n - 1]), incoming[n - 1])
  }

  /** The merge loop of `importWorkflows`: each incoming workflow replaces
      the stored one with its id, or is appended. */
  method MergeAll(existing: seq<Workflow>, incoming: seq<Workflow>) returns (merged: seq<Workflow>)
    ensures merged == Merge(existing, incoming)
  {
    merged := existing;
    var i := 0;
    while i < |incoming|
      invariant 0 <= i <= |incoming|
      invariant merged == Merge(existing, incoming[..i])
    {
      assert incoming[..i + 1][..i] == incoming[..i];
      merged := Upsert(merged, incoming[i]);
      i := i + 1;
    }
    assert incoming[..i] == incoming;
  }

  /** Saving keeps ids unique. */
  lemma UpsertUnique(ws: seq<Workflow>, w: Workflow)
    requires UniqueIds(ws)
    ensures UniqueIds(Upsert(ws, w))
  {
  }

  /** Importing keeps ids unique. */
  lemma {:induction false} MergeUnique(existing: seq<Workflow>, incoming: seq<Workflow>)
    requires UniqueIds(existing)
    ensures UniqueIds(Merge(existing, incoming))
  {
    if incoming != [] {
      var n := |incoming|;
      MergeUnique(existing, incoming[..n - 1]);
      UpsertUnique(Merge(existing, incoming[..n - 1]), incoming[n - 1]);
    }
  }

  /** A stored workflow whose id is not among the incoming ones is left as it was. */
  lemma {:induction false} MergeUntouched(existing: seq<Workflow>, incoming: seq<Workflow>, j: int)
    requires 0 <= j < |existing| && existing[j].id !in Ids(incoming)
    ensures Merge(existing, incoming)[j] == existing[j]
  {
    if incoming != [] {
      var n := |incoming|;
      InIdsLast(incoming, existing[j].id);
      MergeUntouched(existing, incoming[..n - 1], j);
      var m := Merge(existing, incoming[..n - 1]);
      assert m[j].id == existing[j].id by {
        assert Ids(m)[..|existing|][j] == Ids(existing)[j];
      }
    }
  }

  /** After the merge, an id is present exactly when it was stored or incoming. */
  lemma {:induction false} MergeIdSet(existing: seq<Workflow>, incoming: seq<Workflow>, id: string)
    ensures id in Ids(Merge(existing, incoming)) <==> id in Ids(existing) || id in Ids(incoming)
  {
    if incoming != [] {
      var n := |incoming|;
      MergeIdSet(existing, incoming[..n - 1], id);
      InIdsLast(incoming, id);
    }
  }

  /** An id occurs in a non-empty list exactly when it occurs before the
      last element or is the last element's. */
  lemma InIdsLast(ws: seq<Workflow>, id: string)
    requires ws != []
    ensures id in Ids(ws) <==> id in Ids(ws[..|ws| - 1]) || id == ws[|ws| - 1].id
  {
    assert Ids(ws) == Ids(ws[..|ws| - 1]) + [ws[|ws| - 1].id];
  }

  /** Incoming wins: an incoming workflow not overridden by a later incoming
      one with the same id ends up in the result, as the only entry with its id. */
  lemma MergeIncomingWins(existing: seq<Workflow>, incoming: seq<Workflow>, i: int)
    requires UniqueIds(existing)
    requires 0 <= i < |incoming|
    requires forall j :: i < j < |incoming| ==> incoming[j].id != incoming[i].id
    ensures incoming[i] in Merge(existing, incoming)
    ensures forall w :: w in Merge(existing, incoming) && w.id == incoming[i].id ==> w == incoming[i]
  {
    var r := Merge(existing, incoming);
    MergeKeepsIncoming(existing, incoming, i);
    MergeUnique(existing, incoming);
    forall w | w in r && w.id == incoming[i].id ensures w == incoming[i] {
      SameIdSameWorkflow(r, w, incoming[i]);
    }
  }

  lemma {:induction false} MergeKeepsIncoming(existing: seq<Workflow>, incoming: seq<Workflow>, i: int)
    requires 0 <= i < |incoming|
    requires forall j :: i < j < |incoming| ==> incoming[j].id != incoming[i].id
    ensures incoming[i] in Merge(existing, incoming)
  {
    var n := |incoming|;
    var m := Merge(existing, incoming[..n - 1]);
    var last := incoming[n - 1];
    var u := Upsert(m, last);
    assert Merge(existing, incoming) == u;
    var p: int;
    if i < n - 1 {
      MergeKeepsIncoming(existing, incoming[..n - 1], i);
      p :| 0 <= p < |m| && m[p] == incoming[i];
      assert m[p].id != last.id;
    } else if last.id in Ids(m) {
      p := IndexOf(Ids(m), last.id);
    } else {
      p := |m|;
    }
    assert |Ids(u)| == |u| && |Ids(m)| == |m|;
    assert 0 <= p < |u| && u[p] == incoming[i];
  }

  /** In a list with unique ids, an id names one workflow. */
  lemma SameIdSameWorkflow(ws: seq<Workflow>, v: Workflow, w: Workflow)
    requires UniqueIds(ws) && v in ws && w in ws && v.id == w.id
    ensures v == w
  {
    var p :| 0 <= p < |ws| && ws[p] == v;
    var q :| 0 <= q < |ws| && ws[q] == w;
    assert Ids(ws)[p] == Ids(ws)[q];
  }

  /** Re-importing workflows that are already stored, in stored order,
      changes nothing. */
  lemma {:induction false} MergePrefixOfSelf(ws: seq<Workflow>, k: nat)
    requires UniqueIds(ws) && k <= |ws|
    ensures Merge(ws, ws[..k]) == ws
  {
    if k > 0 {
      assert ws[..k][..k - 1] == ws[..k - 1];
      MergePrefixOfSelf(ws, k - 1);
      IndexOfDistinct(Ids(ws), k - 1);
      assert ws[k - 1 := ws[k - 1]] == ws;
    }
  }

  lemma MergeSelf(ws: seq<Workflow>)
    requires UniqueIds(ws)
    ensures Merge(ws, ws) == ws
  {
    MergePrefixOfSelf(ws, |ws|);
    assert ws[..|ws|] == ws;
  }

  /** The stored workflows after an accepted import: merged with the
      document's array, or left alone when the field is not an array. */
  function ImportedWorkflows(ws: seq<Workflow>, field: WorkflowsField): seq<Workflow> {
    if field.List? then Merge(ws, field.items) else ws
  }

  /** Importing the stored list itself changes nothing. */
  lemma ReimportKeeps(ws: seq<Workflow>)
    requires UniqueIds(ws)
    ensures ImportedWorkflows(ws, List(ws)) == ws
  {
    MergeSelf(ws);
  }

  function KeepOthers(id: string): Workflow -> bool {
    (w: Workflow) => w.id != id
  }

  /** `deleteCustomWorkflow`'s filter. */
  function Delete(ws: seq<Workflow>, id: string): seq<Workflow> {
    Filter(ws, KeepOthers(id))
  }

  /** Every entry with the id is dropped, the others are kept, and an
      absent id changes nothing. */
  lemma DeleteDrops(ws: seq<Workflow>, id: string)
    ensures id !in Ids(Delete(ws, id))
    ensures forall j :: 0 <= j < |ws| && ws[j].id != id ==> ws[j] in Delete(ws, id)
    ensures forall j :: 0 <= j < |Delete(ws, id)| ==> Delete(ws, id)[j] in ws
    ensures id !in Ids(ws) ==> Delete(ws, id) == ws
  {
    FilterMembers(ws, KeepOthers(id));
    if id !in Ids(ws) {
      FilterKeepsAll(ws, KeepOthers(id));
    }
  }

  /** Deleting keeps ids unique. */
  lemma {:induction false} FilterUnique(ws: seq<Workflow>, id: string)
    ensures UniqueIds(ws) ==> UniqueIds(Filter(ws, KeepOthers(id)))
  {
    if ws != [] && UniqueIds(ws) {
      var rest := Filter(ws[1..], KeepOthers(id));
      FilterMembers(ws[1..], KeepOthers(id));
      TailUnique(ws);
      FilterUnique(ws[1..], id);
      if KeepOthers(id)(ws[0]) {
        assert forall j :: 0 <= j < |rest| ==> rest[j].id != ws[0].id by {
          forall j | 0 <= j < |rest| ensures rest[j].id != ws[0].id {
            var p :| 0 <= p < |ws[1..]| && ws[1..][p] == rest[j];
            assert Ids(ws)[0] != Ids(ws)[p + 1];
          }
        }
        ConsUnique(ws[0], rest);
      }
    }
  }

  lemma TailUnique(ws: seq<Workflow>)
    requires ws != [] && UniqueIds(ws)
    ensures UniqueIds(ws[1..])
  {
    assert forall i :: 0 <= i < |ws| - 1 ==> Ids(ws[1..])[i] == Ids(ws)[i + 1];
  }

  lemma ConsUnique(w: Workflow, ws: seq<Workflow>)
    requires UniqueIds(ws) && forall j :: 0 <= j < |ws| ==> ws[j].id != w.id
    ensures UniqueIds([w] + ws)
  {
    var r := [w] + ws;
    forall i, j | 0 <= i < j < |r| ensures Ids(r)[i] != Ids(r)[j] {
      if i > 0 {
        assert Ids(ws)[i - 1] != Ids(ws)[j - 1];
      }
    }
  }

  /** Deletion works piecewise, so the surviving entries keep their order. */
  lemma DeleteKeepsOrder(a: seq<Workflow>, b: seq<Workflow>, id: string)
    ensures Delete(a + b, id) == Delete(a, id) + Delete(b, id)
  {
    FilterAppend(a, b, KeepOthers(id));
  }

  // ---------------------------------------------------------------------------
  // CSV export

  /** The column line of the per-workflow table. */
  const CsvColumns := "Workflow ID," + "Runs,Successful," + "Failed,Total Steps," + "Avg Duration"

  /** A workflow's mean duration as the export shows it: 0 before any run. */
  function AverageDurationOf(st: WorkflowStat): int {
    if st.runs > 0 then RoundDiv(st.totalDuration, st.runs) else 0
  }

  function CsvRow(id: string, st: WorkflowStat): string {
    id + "," + NatToString(st.runs) + "," + NatToString(st.successful) + "," + NatToString(st.failed)
    + "," + NatToString(st.totalSteps) + "," + IntToString(AverageDurationOf(st))
  }

  /** The nine lines before the per-workflow rows. */
  function CsvHeaderLines(a: Analytics): seq<string> {
    HeaderLinesOf(NatToString(a.totalRuns), NatToString(a.successfulRuns), NatToString(a.failedRuns),
                  NatToString(a.totalStepsCompleted), IntToString(a.averageDuration))
  }

  function HeaderLinesOf(runs: string, successful: string, failed: string, steps: string, average: string): seq<string> {
    [ "Metric,Value",
      "Total Runs," + runs,
      "Successful Runs," + successful,
      "Failed Runs," + failed,
      "Total Steps Completed," + steps,
      "Average Duration (ms)," + average,
      "",
      "Workflow Stats",
      CsvColumns ]
  }

  function CsvRows(stats: seq<(string, WorkflowStat)>): (rows: seq<string>)
    ensures |rows| == |stats| && forall k :: 0 <= k < |stats| ==> rows[k] == CsvRow(stats[k].0, stats[k].1)
  {
    seq(|stats|, k requires 0 <= k < |stats| => CsvRow(stats[k].0, stats[k].1))
  }

  function CsvLines(a: Analytics): seq<string> {
    CsvHeaderLines(a) + CsvRows(a.workflowStats)
  }

  lemma NoNewlineAppend(x: string, y: string)
    requires NoNewline(x) && NoNewline(y)
    ensures NoNewline(x + y)
  {
  }

  lemma NumbersHaveNoNewline(n: nat, i: int)
    ensures NoNewline(NatToString(n)) && NoNewline(IntToString(i))
  {
  }

  lemma RowHasNoNewline(id: string, st: WorkflowStat)
    requires NoNewline(id)
    ensures NoNewline(CsvRow(id, st))
  {
    var p1 := id + "," + NatToString(st.runs);
    var p2 := p1 + "," + NatToString(st.successful);
    var p3 := p2 + "," + NatToString(st.failed);
    var p4 := p3 + "," + NatToString(st.totalSteps);
    var p5 := p4 + "," + IntToString(AverageDurationOf(st));
    assert NoNewline(p1) by { NumbersHaveNoNewline(st.runs, 0); }
    assert NoNewline(p2) by { NumbersHaveNoNewline(st.successful, 0); }
    assert NoNewline(p3) by { NumbersHaveNoNewline(st.failed, 0); }
    assert NoNewline(p4) by { NumbersHaveNoNewline(st.totalSteps, 0); }
    assert NoNewline(p5) by { NumbersHaveNoNewline(0, AverageDurationOf(st)); }
  }

  lemma HeaderHasNoNewline(a: Analytics)
    ensures forall k :: 0 <= k < |CsvHeaderLines(a)| ==> NoNewline(CsvHeaderLines(a)[k])
  {
    NumbersHaveNoNewline(a.totalRuns, a.averageDuration);
    NumbersHaveNoNewline(a.successfulRuns, 0);
    NumbersHaveNoNewline(a.failedRuns, 0);
    NumbersHaveNoNewline(a.totalStepsCompleted, 0);
    HeaderLinesHaveNoNewline(NatToString(a.totalRuns), NatToString(a.successfulRuns), NatToString(a.failedRuns),
                             NatToString(a.totalStepsCompleted), IntToString(a.averageDuration));
  }

  lemma HeaderLinesHaveNoNewline(runs: string, successful: string, failed: string, steps: string, average: string)
    requires NoNewline(runs) && NoNewline(successful) && NoNewline(failed) && NoNewline(steps) && NoNewline(average)
    ensures var h := HeaderLinesOf(runs, successful, failed, steps, average);
      forall k :: 0 <= k < |h| ==> NoNewline(h[k])
  {
    var h := HeaderLinesOf(runs, successful, failed, steps, average);
    assert NoNewline(h[0]);
    assert NoNewline(h[1]) by { NoNewlineAppend("Total Runs,", runs); }
    assert NoNewline(h[2]) by { NoNewlineAppend("Successful Runs,", successful); }
    assert NoNewline(h[3]) by { NoNewlineAppend("Failed Runs,", failed); }
    assert NoNewline(h[4]) by { NoNewlineAppend("Total Steps Completed,", steps); }
    assert NoNewline(h[5]) by { NoNewlineAppend("Average Duration (ms),", average); }
    assert NoNewline(h[6]) && NoNewline(h[7]);
    ColumnsHaveNoNewline();
  }

  lemma ColumnsHaveNoNewline()
    ensures NoNewline(CsvColumns)
  {
    var x, y := "Workflow ID," + "Runs,Successful,", "Failed,Total Steps," + "Avg Duration";
    assert NoNewline(x) by { NoNewlineAppend("Workflow ID,", "Runs,Successful,"); }
    assert NoNewline(y) by { NoNewlineAppend("Failed,Total Steps,", "Avg Duration"); }
    NoNewlineAppend(x, y);
  }

  /** Read back line by line, the export is exactly the header lines followed
      by one row per workflow, in stored order — provided no workflow id
      itself contains a line break. */
  lemma CsvSplitsIntoRows(a: Analytics)
    requires forall k :: 0 <= k < |a.workflowStats| ==> NoNewline(a.workflowStats[k].0)
    ensures SplitLines(Unlines(CsvLines(a))) == CsvLines(a)
    ensures |CsvLines(a)| == 9 + |a.workflowStats|
    ensures forall k :: 0 <= k < |a.workflowStats| ==>
      CsvLines(a)[9 + k] == CsvRow(a.workflowStats[k].0, a.workflowStats[k].1)
  {
    LinesHaveNoNewline(a);
    SplitUnlines(CsvLines(a));
  }

  lemma LinesHaveNoNewline(a: Analytics)
    requires forall k :: 0 <= k < |a.workflowStats| ==> NoNewline(a.workflowStats[k].0)
    ensures forall k :: 0 <= k < |CsvLines(a)| ==> NoNewline(CsvLines(a)[k])
  {
    var header, rows := CsvHeaderLines(a), CsvRows(a.workflowStats);
    HeaderHasNoNewline(a);
    forall k | 0 <= k < |header + rows| ensures NoNewline((header + rows)[k]) {
      if k < 9 {
        assert (header + rows)[k] == header[k];
      } else {
        assert (header + rows)[k] == rows[k - 9];
        RowHasNoNewline(a.workflowStats[k - 9].0, a.workflowStats[k - 9].1);
      }
    }
  }

  // ---------------------------------------------------------------------------
  // Export and import documents

  /** The object `exportWorkflows` serialises. */
  datatype ExportDoc = ExportDoc(version: string, exportDate: string, customWorkflows: seq<Workflow>, analytics: Analytics, theme: string)

  /** What an import document holds under `customWorkflows`: nothing, a
      non-array value (with its JavaScript truthiness), or an array. */
  datatype WorkflowsField = Missing | NotAList(truthy: bool) | List(items: seq<Workflow>) {
    predicate Truthy() {
      match this
      case Missing => false
      case NotAList(t) => t
      case List(_) => true
    }
  }

  /** A parsed import document; an absent or null field is `None`. */
  datatype ImportDoc = ImportDoc(version: Option<string>, customWorkflows: WorkflowsField, analytics: Option<Analytics>, theme: Option<string>)

  /** The text given to `importWorkflows`, after `JSON.parse`: either the
      parser's error message or a document. */
  datatype ImportInput = Unparsable(error: string) | Parsed(doc: ImportDoc)

  datatype ImportResult = ImportResult(success: bool, message: string)

  /** A string field is truthy when present and non-empty. */
  predicate Truthy(s: Option<string>) {
    s.Some? && s.value != ""
  }

  /** The validation at the head of `importWorkflows`. */
  predicate WellFormed(doc: ImportDoc) {
    Truthy(doc.version) && doc.customWorkflows.Truthy()
  }

  /** An export document as it reads after a save and a reload. */
  function AsImported(doc: ExportDoc): (r: ImportDoc)
    ensures doc.version != "" ==> WellFormed(r)
  {
    ImportDoc(Some(doc.version), List(doc.customWorkflows), Some(doc.analytics), Some(doc.theme))
  }

  // ---------------------------------------------------------------------------
  // The store

  class Store {
    var customWorkflows: seq<Workflow>
    var themeItem: Option<string>
    var analyticsItem: Option<Analytics>
    var settingsItem: Option<Settings>

    /** Custom workflow ids stay unique under every operation. */
    ghost predicate Valid()
      reads this`customWorkflows
    {
      UniqueIds(customWorkflows)
    }

    /** An empty store: no entry under any key. */
    constructor ()
      ensures Valid()
      ensures customWorkflows == [] && themeItem == None && analyticsItem == None && settingsItem == None
    {
      customWorkflows := [];
      themeItem := None;
      analyticsItem := None;
      settingsItem := None;
    }

    /** `getTheme`: the stored theme, or "dark" when none (or an empty one) is stored. */
    function GetTheme(): (theme: string)
      reads this`themeItem
      ensures theme != ""
      ensures Truthy(themeItem) ==> theme == themeItem.value
      ensures !Truthy(themeItem) ==> theme == DefaultTheme
    {
      if Truthy(themeItem) then themeItem.value else DefaultTheme
    }

    method SetTheme(theme: string)
      modifies this`themeItem
      ensures themeItem == Some(theme)
    {
      themeItem := Some(theme);
    }

    /** `getAnalytics`: the stored snapshot, or the zero snapshot. */
    function GetAnalytics(): (a: Analytics)
      reads this`analyticsItem
      ensures analyticsItem.None? ==> a == ZeroAnalytics
      ensures analyticsItem.Some? ==> a == analyticsItem.value
    {
      analyticsItem.GetOr(ZeroAnalytics)
    }

    /** `getSettings`: the stored settings, or normal speed with auto-save and
        notifications on. */
    function GetSettings(): (s: Settings)
      reads this`settingsItem
      ensures settingsItem.None? ==> s.defaultSpeed == "normal" && s.autoSave && s.showNotifications
                                     && !s.enableKeyboardShortcuts && !s.enableStepFailure
      ensures settingsItem.Some? ==> s == settingsItem.value
    {
      settingsItem.GetOr(DefaultSettings)
    }

    method SaveSettings(settings: Settings)
      modifies this`settingsItem
      ensures settingsItem == Some(settings)
    {
      settingsItem := Some(settings);
    }

    /** `saveCustomWorkflow`: replace in place or append; returns the new list. */
    method SaveCustomWorkflow(w: Workflow) returns (ws: seq<Workflow>)
      modifies this`customWorkflows
      ensures customWorkflows == Upsert(old(customWorkflows), w) && ws == customWorkflows
      ensures old(Valid()) ==> Valid()
    {
      if Valid() {
        UpsertUnique(customWorkflows, w);
      }
      customWorkflows := Upsert(customWorkflows, w);
      ws := customWorkflows;
    }

    /** `deleteCustomWorkflow`: drop every entry with the id; returns the new list. */
    method DeleteCustomWorkflow(id: string) returns (ws: seq<Workflow>)
      modifies this`customWorkflows
      ensures customWorkflows == Delete(old(customWorkflows), id) && ws == customWorkflows
      ensures old(Valid()) ==> Valid()
    {
      FilterUnique(customWorkflows, id);
      customWorkflows := Delete(customWorkflows, id);
      ws := customWorkflows;
    }

    /** `exportWorkflows`: the stored workflows with the analytics and theme
        as the getters read them; `exportDate` is the caller's clock. */
    method ExportWorkflows(exportDate: string) returns (doc: ExportDoc)
      ensures doc.version == ExportVersion && doc.exportDate == exportDate
      ensures doc.customWorkflows == customWorkflows
      ensures doc.analytics == GetAnalytics() && doc.theme == GetTheme()
    {
      doc := ExportDoc(ExportVersion, exportDate, customWorkflows, GetAnalytics(), GetTheme());
    }

    /** `importWorkflows`: a document without a truthy `version` or
        `customWorkflows` (or text that does not parse) is refused and nothing
        is written; otherwise an array of workflows is merged by id with
        incoming entries winning, and analytics and theme are overwritten
        when the document carries them. */
    method ImportWorkflows(input: ImportInput) returns (res: ImportResult)
      modifies this
      ensures res.success <==> input.Parsed? && WellFormed(input.doc)
      ensures input.Unparsable? ==> res.message == input.error
      ensures input.Parsed? && !WellFormed(input.doc) ==> res.message == InvalidFormatMessage
      ensures res.success ==> res.message == ImportedMessage
      ensures !res.success ==> unchanged(this)
      ensures res.success ==>
        && customWorkflows == ImportedWorkflows(old(customWorkflows), input.doc.customWorkflows)
        && analyticsItem == (if input.doc.analytics.Some? then input.doc.analytics else old(analyticsItem))
        && themeItem == (if Truthy(input.doc.theme) then input.doc.theme else old(themeItem))
        && settingsItem == old(settingsItem)
      ensures old(Valid()) ==> Valid()
    {
      if input.Unparsable? {
        return ImportResult(false, input.error);
      }
      var doc := input.doc;
      if !Truthy(doc.version) || !doc.customWorkflows.Truthy() {
        return ImportResult(false, InvalidFormatMessage);
      }
      if doc.customWorkflows.List? {
        var incoming := doc.customWorkflows.items;
        var merged := MergeAll(customWorkflows, incoming);
        if Valid() {
          MergeUnique(customWorkflows, incoming);
        }
        customWorkflows := merged;
      }
      if doc.analytics.Some? {
        analyticsItem := doc.analytics;
      }
      if Truthy(doc.theme) {
        themeItem := doc.theme;
      }
      res := ImportResult(true, ImportedMessage);
    }

    /** Importing what was just exported leaves workflows, analytics and theme
        as the getters read them. */
    method ExportThenImport(exportDate: string) returns (res: ImportResult)
      requires Valid()
      modifies this
      ensures res.success
      ensures customWorkflows == old(customWorkflows)
      ensures GetAnalytics() == old(GetAnalytics()) && GetTheme() == old(GetTheme())
      ensures settingsItem == old(settingsItem)
    {
      var doc := ExportWorkflows(exportDate);
      var input := Parsed(AsImported(doc));
      assert WellFormed(input.doc);
      ReimportKeeps(customWorkflows);
      res := ImportWorkflows(input);
    }

    /** `updateAnalytics`: fold one run into the stored snapshot, field by field. */
    method UpdateAnalytics(o: RunOutcome, timestamp: string) returns (a: Analytics)
      modifies this`analyticsItem
      ensures a == RecordRun(old(GetAnalytics()), o, timestamp)
      ensures analyticsItem == Some(a)
    {
      var prev := GetAnalytics();
      a := CountIntoSnapshot(prev, o, timestamp);
      analyticsItem := Some(a);
    }

    /** `clearAnalytics`: store the zero snapshot, the same value the getter
        supplies when nothing is stored. */
    method ClearAnalytics()
      modifies this`analyticsItem
      ensures analyticsItem == Some(ZeroAnalytics)
      ensures GetAnalytics() == ZeroAnalytics && Consistent(GetAnalytics())
    {
      analyticsItem := Some(ZeroAnalytics);
    }

    /** `exportAnalyticsCSV`: the header lines, then one row per workflow in
        stored order, accumulated into one string. */
    method ExportAnalyticsCsv() returns (csv: string)
      ensures csv == Unlines(CsvLines(GetAnalytics()))
    {
      var a := GetAnalytics();
      csv := CsvHeader(a);
      var stats := a.workflowStats;
      ghost var lines := CsvLines(a);
      assert lines[..9] == CsvHeaderLines(a);
      var k := 0;
      while k < |stats|
        invariant 0 <= k <= |stats|
        invariant csv == Unlines(lines[..9 + k])
      {
        var row := CsvRow(stats[k].0, stats[k].1);
        AppendLine(csv, lines, 9 + k, row);
        csv := csv + row + "\n";
        k := k + 1;
      }
      assert lines[..9 + k] == lines;
    }
  }

  /** The first part of `exportAnalyticsCSV`: the header lines accumulated
      one after another. */
  method CsvHeader(a: Analytics) returns (csv: string)
    ensures csv == Unlines(CsvHeaderLines(a))
  {
    var runs, successful, failed := NatToString(a.totalRuns), NatToString(a.successfulRuns), NatToString(a.failedRuns);
    var steps, average := NatToString(a.totalStepsCompleted), IntToString(a.averageDuration);
    ghost var h := HeaderLinesOf(runs, successful, failed, steps, average);
    csv := "";
    assert h[..0] == [];
    var line := "Metric,Value";
    AppendLine(csv, h, 0, line);
    csv := csv + line + "\n";
    line := "Total Runs," + runs;
    AppendLine(csv, h, 1, line);
    csv := csv + line + "\n";
    line := "Successful Runs," + successful;
    AppendLine(csv, h, 2, line);
    csv := csv + line + "\n";
    line := "Failed Runs," + failed;
    AppendLine(csv, h, 3, line);
    csv := csv + line + "\n";
    line := "Total Steps Completed," + steps;
    AppendLine(csv, h, 4, line);
    csv := csv + line + "\n";
    line := "Average Duration (ms)," + average;
    AppendLine(csv, h, 5, line);
    csv := csv + line + "\n";
    line := "";
    AppendLine(csv, h, 6, line);
    csv := csv + line + "\n";
    line := "Workflow Stats";
    AppendLine(csv, h, 7, line);
    csv := csv + line + "\n";
    line := CsvColumns;
    AppendLine(csv, h, 8, line);
    csv := csv + line + "\n";
    assert h[..9] == h;
  }

  /** Appending line `j` and a newline to the text of the first `j` lines
      gives the text of the first `j + 1`. */
  lemma AppendLine(text: string, lines: seq<string>, j: int, line: string)
    requires 0 <= j < |lines| && lines[j] == line && text == Unlines(lines[..j])
    ensures text + line + "\n" == Unlines(lines[..j + 1])
  {
    assert lines[..j + 1] == lines[..j] + [lines[j]];
    UnlinesAppend(lines[..j], [lines[j]]);
  }
}
