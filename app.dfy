/** The simulator session of src/App.js. A user picks a workflow, starts a
    run, and an interval tick plays it one step at a time: the step before
    the current one is marked completed, the next one running, and when the
    last step has been passed the run stops and is folded into the stored
    analytics. React state becomes the fields of a `Session`; what one tick
    does to the step statuses is given by functions on values, whose
    properties (the shape of a run, how many ticks a run takes) are proved as
    lemmas and tied to the session's `Tick` by its postcondition. */
module App {
  import opened Common
  import opened Workflows
  import opened Storage

  /** A step of the selected workflow with its status in the current run. */
  datatype RunStep = RunStep(step: Step, status: StepStatus)

  /** The `type` of a log entry. */
  datatype LogKind = Info | Success | Warning

  datatype LogEntry = LogEntry(id: int, timestamp: string, message: string, kind: LogKind)

  /** One reading of the clock as the handlers use it: `Date.now()`, and the
      same instant rendered by `toLocaleTimeString()` and `toISOString()`. */
  datatype Instant = Instant(ms: int, localTime: string, isoTime: string)

  /** The entry `addLog` appends: its id is the time in milliseconds. */
  function Entry(message: string, kind: LogKind, at: Instant): LogEntry {
    LogEntry(at.ms, at.localTime, message, kind)
  }

  const StartedMessage := "Simulation started"
  const ResumedMessage := "Simulation resumed"
  const PausedMessage := "Simulation paused"
  const ResetMessage := "Simulation reset"
  const CompletedMessage := "Simulation completed successfully!"
  const DeletedMessage := "Workflow deleted"

  function SelectedMessage(w: Workflow): string {
    "Selected workflow: " + w.name
  }

  function StartingMessage(s: Step): string {
    "Starting: " + s.title
  }

  function SavedMessage(w: Workflow): string {
    "Workflow \"" + w.name + "\" saved"
  }

  // ---------------------------------------------------------------------------
  // Step statuses during a run

  /** The run carries exactly the steps `ws`, in order. */
  ghost predicate RunOf(rs: seq<RunStep>, ws: seq<Step>) {
    |rs| == |ws| && forall i :: 0 <= i < |rs| ==> rs[i].step == ws[i]
  }

  /** The shape of a run whose current step is `index` (-1 before the first
      tick): every step before it is completed, every step after it is
      pending, and the current one is running or, once the run is over,
      completed. */
  ghost predicate Shape(rs: seq<RunStep>, index: int) {
    && -1 <= index < |rs|
    && (forall i :: 0 <= i < index ==> rs[i].status == Completed)
    && (forall i :: index < i < |rs| ==> rs[i].status == Pending)
    && (0 <= index ==> rs[index].status == Running || rs[index].status == Completed)
  }

  predicate AllCompleted(rs: seq<RunStep>) {
    forall i :: 0 <= i < |rs| ==> rs[i].status == Completed
  }

  /** `workflow.steps.map(step => ({...step, status: PENDING}))`: the
      statuses of a run that has not yet ticked. */
  function AllPending(steps: seq<Step>): (rs: seq<RunStep>)
    ensures RunOf(rs, steps) && Shape(rs, -1)
  {
    seq(|steps|, i requires 0 <= i < |steps| => RunStep(steps[i], Pending))
  }

  /** In a run of this shape no step but the current one is running. */
  lemma AtMostOneRunning(rs: seq<RunStep>, index: int)
    requires Shape(rs, index)
    ensures forall i :: 0 <= i < |rs| && rs[i].status == Running ==> i == index
  {
  }

  /** One tick's update of the statuses: the step at `prev`, when there is
      one, becomes completed and the step after it, when there is one,
      becomes running. */
  function MarkTick(rs: seq<RunStep>, prev: int): (r: seq<RunStep>)
    ensures |r| == |rs| && forall i :: 0 <= i < |r| ==> r[i].step == rs[i].step
  {
    var done := if 0 <= prev < |rs| then rs[prev := RunStep(rs[prev].step, Completed)] else rs;
    if 0 <= prev + 1 < |done| then done[prev + 1 := RunStep(done[prev + 1].step, Running)] else done
  }

  /** The tick's copy-and-assign update of the step array. */
  method Advance(rs: seq<RunStep>, prev: int) returns (r: seq<RunStep>)
    ensures r == MarkTick(rs, prev)
  {
    r := rs;
    if 0 <= prev < |r| {
      r := r[prev := RunStep(r[prev].step, Completed)];
    }
    if 0 <= prev + 1 < |r| {
      r := r[prev + 1 := RunStep(r[prev + 1].step, Running)];
    }
  }

  /** The log lines one tick adds: the start of the next step when there is
      one, then the completion message when the run ends. */
  function TickLogs(rs: seq<RunStep>, prev: int, total: int, at: Instant): seq<LogEntry> {
    (if 0 <= prev + 1 < |rs| then [Entry(StartingMessage(rs[prev + 1].step), Info, at)] else [])
    + (if prev + 1 >= total then [Entry(CompletedMessage, Success, at)] else [])
  }

  /** In a run of the right shape every tick logs exactly one line: the start
      of the next step, or the completion of the run when no step is left. */
  lemma TickLogsOne(rs: seq<RunStep>, prev: int, at: Instant)
    requires Shape(rs, prev)
    ensures |TickLogs(rs, prev, |rs|, at)| == 1
    ensures prev + 1 < |rs| ==> TickLogs(rs, prev, |rs|, at) == [Entry(StartingMessage(rs[prev + 1].step), Info, at)]
    ensures prev + 1 == |rs| ==> TickLogs(rs, prev, |rs|, at) == [Entry(CompletedMessage, Success, at)]
  {
  }

  // ---------------------------------------------------------------------------
  // A run as a sequence of ticks

  /** The part of the session one tick changes. */
  datatype Progress = Progress(steps: seq<RunStep>, index: int, running: bool)

  /** The state of a run right after a workflow was selected and started. */
  function Fresh(ws: seq<Step>): Progress {
    Progress(AllPending(ws), -1, true)
  }

  /** One tick of a run of a workflow with `total` steps: the statuses are
      updated and the index advances, unless the next index is past the last
      step, in which case the run stops and the index stays where it was. */
  function TickProgress(p: Progress, total: int): Progress {
    if !p.running then p
    else
      var s := MarkTick(p.steps, p.index);
      if p.index + 1 >= total then Progress(s, p.index, false) else Progress(s, p.index + 1, true)
  }

  /** `k` ticks in a row. */
  function Ticks(p: Progress, total: int, k: nat): Progress {
    if k == 0 then p else TickProgress(Ticks(p, total, k - 1), total)
  }

  /** A tick keeps the shape of the run and leaves the steps themselves
      alone. While the run goes on, the new current step is running; when
      the run stops, it stops on the last step with every step completed. */
  lemma TickKeepsShape(p: Progress, ws: seq<Step>)
    requires Shape(p.steps, p.index) && RunOf(p.steps, ws)
    ensures var q := TickProgress(p, |ws|);
      && Shape(q.steps, q.index)
      && RunOf(q.steps, ws)
      && (p.running && q.running ==> q.index == p.index + 1 && q.steps[q.index].status == Running)
      && (p.running && !q.running ==> q.index == p.index == |ws| - 1 && AllCompleted(q.steps))
  {
    if p.running {
      var s := MarkTick(p.steps, p.index);
      forall i | 0 <= i < |ws|
        ensures s[i].status == (if i == p.index then Completed else if i == p.index + 1 then Running else p.steps[i].status)
      {
      }
    }
  }

  /** From a fresh start, each of the first `|ws|` ticks starts the next step:
      after `k` ticks the run is still going and step `k - 1` is running. */
  lemma {:induction false} TicksFromFresh(ws: seq<Step>, k: nat)
    requires k <= |ws|
    ensures var q := Ticks(Fresh(ws), |ws|, k);
      && q.running && q.index == k - 1
      && Shape(q.steps, q.index) && RunOf(q.steps, ws)
      && (0 < k ==> q.steps[k - 1].status == Running)
  {
    if 0 < k {
      TicksFromFresh(ws, k - 1);
      TickKeepsShape(Ticks(Fresh(ws), |ws|, k - 1), ws);
    }
  }

  /** A run of an N-step workflow ends on tick N + 1, not before: it stops
      with every step completed and the index on the last step. With no
      steps at all, the first tick ends it and no step ever runs. */
  lemma RunCompletes(ws: seq<Step>)
    ensures var q := Ticks(Fresh(ws), |ws|, |ws| + 1);
      && !q.running && q.index == |ws| - 1 && AllCompleted(q.steps) && RunOf(q.steps, ws)
    ensures forall k :: 0 <= k <= |ws| ==> Ticks(Fresh(ws), |ws|, k).running
  {
    forall k | 0 <= k <= |ws|
      ensures Ticks(Fresh(ws), |ws|, k).running
    {
      TicksFromFresh(ws, k);
    }
    TicksFromFresh(ws, |ws|);
    TickKeepsShape(Ticks(Fresh(ws), |ws|, |ws|), ws);
  }

  /** Starting again after a run has completed, without a reset, ends the
      new run on its very first tick: the index is still on the last step,
      so nothing runs again and the statuses stay completed. */
  lemma RestartCompletesAtOnce(p: Progress, total: int)
    requires Shape(p.steps, p.index) && |p.steps| == total
    requires !p.running && AllCompleted(p.steps) && p.index == total - 1
    ensures TickProgress(p.(running := true), total) == p
  {
    if 0 <= p.index {
      assert p.steps[p.index] == RunStep(p.steps[p.index].step, Completed);
      assert MarkTick(p.steps, p.index) == p.steps;
    }
  }

  // ---------------------------------------------------------------------------
  // Speed

  const SpeedCycle := ["SLOW", "NORMAL", "FAST"]

  /** The `S` key: `speeds[(speeds.indexOf(speed) + 1) % 3]`. Every result
      names an interval. */
  function NextSpeed(speed: string): (r: string)
    ensures SpeedKey(r).Some?
  {
    var i := IndexOf(SpeedCycle, speed);
    SpeedCycle[(i + 1) % 3]
  }

  /** Slow, normal and fast follow each other in a cycle; any other value,
      which `indexOf` reports as -1, moves to slow. */
  lemma NextSpeedCycles(speed: string)
    ensures speed == "SLOW" ==> NextSpeed(speed) == "NORMAL"
    ensures speed == "NORMAL" ==> NextSpeed(speed) == "FAST"
    ensures speed == "FAST" ==> NextSpeed(speed) == "SLOW"
    ensures SpeedKey(speed).None? ==> NextSpeed(speed) == "SLOW"
  {
    assert SpeedCycle[0] == "SLOW" && SpeedCycle[1] == "NORMAL" && SpeedCycle[2] == "FAST";
    if SpeedKey(speed).None? {
      assert speed !in SpeedCycle;
    }
  }

  /** Three presses of `S` come back to any speed that names an interval. */
  lemma NextSpeedThrice(speed: string)
    requires SpeedKey(speed).Some?
    ensures NextSpeed(NextSpeed(NextSpeed(speed))) == speed
  {
    NextSpeedCycles(speed);
    NextSpeedCycles(NextSpeed(speed));
    NextSpeedCycles(NextSpeed(NextSpeed(speed)));
  }

  /** Each press of `S` from slow or normal halves the tick interval, and a
      press from fast goes back to the slowest interval. */
  lemma CycleShortensInterval(speed: string)
    requires SpeedKey(speed).Some?
    ensures var next := IntervalMs(SpeedKey(NextSpeed(speed)).value);
      && (speed != "FAST" ==> 2 * next == IntervalMs(SpeedKey(speed).value))
      && (speed == "FAST" ==> next == 2000)
  {
    NextSpeedCycles(speed);
  }

  /** The speed a session starts with: `settings.defaultSpeed || 'NORMAL'`. */
  function InitialSpeed(settings: Settings): string {
    if settings.defaultSpeed == "" then "NORMAL" else settings.defaultSpeed
  }

  /** The stored default speed is lower case, so the speed a session starts
      with names no interval until the user changes it. */
  lemma DefaultSpeedNamesNoInterval()
    ensures SpeedKey(InitialSpeed(DefaultSettings)).None?
    ensures NextSpeed(InitialSpeed(DefaultSettings)) == "SLOW"
  {
    NextSpeedCycles(InitialSpeed(DefaultSettings));
  }

  /** `toggleTheme`: dark becomes light, anything else dark. */
  function OtherTheme(theme: string): string {
    if theme == "dark" then "light" else "dark"
  }

  /** Toggling twice restores either of the two themes. */
  lemma OtherThemeTwice(theme: string)
    requires theme == "dark" || theme == "light"
    ensures OtherTheme(OtherTheme(theme)) == theme
  {
  }

  // ---------------------------------------------------------------------------
  // The run-related part of the session

  /** The selection, the statuses, the index and the two run flags. */
  datatype RunView = RunView(selected: Option<Workflow>, steps: seq<RunStep>, index: int, running: bool, paused: bool)

  /** A pause only happens during a run, a run always has a workflow, and
      the statuses have the shape of a run of the selected workflow. */
  ghost predicate RunValid(v: RunView) {
    && (v.paused ==> v.running)
    && (v.running ==> v.selected.Some?)
    && (v.selected.Some? ==> RunOf(v.steps, v.selected.value.steps) && Shape(v.steps, v.index))
    && (v.selected.None? ==> v.steps == [])
  }

  /** One firing of the interval on the run-related fields. */
  function TickView(v: RunView): RunView
    requires v.selected.Some?
  {
    var q := TickProgress(Progress(v.steps, v.index, v.running), |v.selected.value.steps|);
    v.(steps := q.steps, index := q.index, running := q.running)
  }

  /** A tick of an unpaused run keeps the run-related fields valid. */
  lemma TickKeepsValid(v: RunView)
    requires RunValid(v) && v.selected.Some? && !v.paused
    ensures RunValid(TickView(v))
  {
    TickKeepsShape(Progress(v.steps, v.index, v.running), v.selected.value.steps);
  }

  // ---------------------------------------------------------------------------
  // The session

  class Session {
    /** The persistent store the session reads at start and writes through. */
    const store: Store
    /** The built-in workflows, listed before the custom ones. */
    const builtins: seq<Workflow>

    var workflows: seq<Workflow>
    var selected: Option<Workflow>
    var steps: seq<RunStep>
    var index: int
    var isRunning: bool
    var isPaused: bool
    var speed: string
    /** `simulationStartTime`; `null` before the first start, which the
        subtraction reads as 0. */
    var startTime: int
    var enableStepFailure: bool
    var logs: seq<LogEntry>
    var analytics: Option<Analytics>
    var theme: string

    /** The session agrees with the store, a pause only happens during a
        run, a run always has a workflow, and the statuses have the shape of
        a run of the selected workflow. */
    ghost predicate Valid()
      reads this, store
    {
      MirrorsStore() && RunValid(View())
    }

    /** The workflow list, analytics and theme shown are the store's. */
    predicate MirrorsStore()
      reads this`workflows, this`analytics, this`theme, store`customWorkflows, store`analyticsItem, store`themeItem
    {
      && workflows == builtins + store.customWorkflows
      && analytics == Some(store.GetAnalytics())
      && theme == store.GetTheme()
    }

    /** The run-related fields as one value. */
    function View(): RunView
      reads this`selected, this`steps, this`index, this`isRunning, this`isPaused
    {
      RunView(selected, steps, index, isRunning, isPaused)
    }

    /** Running with no workflow: no tick fires, and selecting, starting and
        resetting all refuse to act, so the run can never end. */
    predicate Stuck()
      reads this
    {
      isRunning && selected.None?
    }

    /** Whether the interval is armed (the guard of the simulation effect). */
    predicate Ticking()
      reads this
    {
      isRunning && !isPaused && selected.Some?
    }

    /** The first render followed by the mount effect: theme, workflows and
        analytics come from the store, the speed and the failure switch from
        the stored settings. */
    constructor (store: Store, builtins: seq<Workflow>)
      ensures this.store == store && this.builtins == builtins
      ensures Valid()
      ensures selected == None && steps == [] && index == -1
      ensures !isRunning && !isPaused && startTime == 0 && logs == []
      ensures speed == InitialSpeed(store.GetSettings())
      ensures enableStepFailure == store.GetSettings().enableStepFailure
    {
      this.store := store;
      this.builtins := builtins;
      workflows := builtins + store.customWorkflows;
      selected := None;
      steps := [];
      index := -1;
      isRunning := false;
      isPaused := false;
      startTime := 0;
      logs := [];
      analytics := Some(store.GetAnalytics());
      theme := store.GetTheme();
      var settings := store.GetSettings();
      speed := InitialSpeed(settings);
      enableStepFailure := settings.enableStepFailure;
    }

    /** `addLog`: append one entry stamped with the clock reading. */
    method AddLog(message: string, kind: LogKind, at: Instant)
      modifies this`logs
      ensures logs == old(logs) + [Entry(message, kind, at)]
      ensures old(Valid()) ==> Valid()
    {
      ghost var v := View();
      logs := logs + [Entry(message, kind, at)];
      assert View() == v;
    }

    /** `handleSelectWorkflow`: refused during a run; otherwise the workflow
        is selected with every step pending, and the log starts afresh. */
    method SelectWorkflow(w: Workflow, at: Instant)
      modifies this`selected, this`steps, this`index, this`logs
      ensures old(isRunning) ==> unchanged(this)
      ensures !old(isRunning) ==>
        && selected == Some(w) && steps == AllPending(w.steps) && index == -1
        && logs == [Entry(SelectedMessage(w), Info, at)]
      ensures old(Valid()) ==> Valid()
      ensures old(Stuck()) ==> Stuck()
    {
      if isRunning {
        return;
      }
      selected := Some(w);
      steps := AllPending(w.steps);
      index := -1;
      logs := [];
      AddLog(SelectedMessage(w), Info, at);
    }

    /** `handleStart`: refused without a workflow or during a run; otherwise
        a run starts, unpaused, timed from `at`. */
    method Start(at: Instant)
      modifies this`isRunning, this`isPaused, this`startTime, this`logs
      ensures selected.None? || old(isRunning) ==> unchanged(this)
      ensures selected.Some? && !old(isRunning) ==>
        && isRunning && !isPaused && startTime == at.ms
        && logs == old(logs) + [Entry(StartedMessage, Info, at)]
      ensures old(Valid()) ==> Valid()
      ensures old(Stuck()) ==> Stuck()
    {
      if selected.None? || isRunning {
        return;
      }
      isRunning := true;
      isPaused := false;
      startTime := at.ms;
      AddLog(StartedMessage, Info, at);
    }

    /** `handlePause`: outside a run nothing happens; during one the pause
        flag flips and a warning names the new state. */
    method Pause(at: Instant)
      modifies this`isPaused, this`logs
      ensures !isRunning ==> unchanged(this)
      ensures isRunning ==>
        && isPaused == !old(isPaused)
        && logs == old(logs) + [Entry(if old(isPaused) then ResumedMessage else PausedMessage, Warning, at)]
      ensures old(Valid()) ==> Valid()
      ensures old(Stuck()) ==> Stuck()
    {
      if !isRunning {
        return;
      }
      var wasPaused := isPaused;
      isPaused := !isPaused;
      AddLog(if wasPaused then ResumedMessage else PausedMessage, Warning, at);
    }

    /** `handleReset`: refused without a workflow; otherwise the run stops
        and every step is pending again. */
    method Reset(at: Instant)
      modifies this`isRunning, this`isPaused, this`index, this`steps, this`logs
      ensures selected.None? ==> unchanged(this)
      ensures selected.Some? ==>
        && !isRunning && !isPaused && index == -1 && steps == AllPending(selected.value.steps)
        && logs == old(logs) + [Entry(ResetMessage, Info, at)]
      ensures old(Valid()) ==> Valid()
      ensures old(Stuck()) ==> Stuck()
    {
      if selected.None? {
        return;
      }
      isRunning := false;
      isPaused := false;
      index := -1;
      steps := AllPending(selected.value.steps);
      AddLog(ResetMessage, Info, at);
    }

    /** One firing of the simulation interval. It only fires during an
        unpaused run of a selected workflow. The statuses, index and running
        flag move as `TickProgress` says; when the run ends, one successful
        run of the whole workflow, timed from the start, is recorded in the
        store and the session shows the new snapshot. */
    method Tick(at: Instant)
      modifies this`steps, this`index, this`isRunning, this`logs, this`analytics, store`analyticsItem
      ensures !old(Ticking()) ==> unchanged(this) && unchanged(store)
      ensures old(Ticking()) ==>
        var w := selected.value;
        && View() == TickView(old(View()))
        && logs == old(logs) + TickLogs(old(steps), old(index), |w.steps|, at)
        && (old(index) + 1 >= |w.steps| ==>
              && store.analyticsItem
                 == Some(RecordRun(old(store.GetAnalytics()), RunOutcome(w.id, true, |w.steps|, at.ms - startTime), at.isoTime))
              && analytics == store.analyticsItem)
        && (old(index) + 1 < |w.steps| ==> unchanged(store) && analytics == old(analytics))
      ensures old(Valid()) ==> Valid()
      ensures old(Stuck()) ==> Stuck()
    {
      if !isRunning || isPaused || selected.None? {
        return;
      }
      var w := selected.value;
      var duration := at.ms - startTime;
      var finished := AdvanceRun(at);
      if finished {
        RecordCompletion(RunOutcome(w.id, true, |w.steps|, duration), at.isoTime);
      }
    }

    /** The tick's updates of the statuses, the index, the running flag and
        the log. */
    method AdvanceRun(at: Instant) returns (finished: bool)
      requires Ticking()
      modifies this`steps, this`index, this`isRunning, this`logs
      ensures View() == TickView(old(View()))
      ensures logs == old(logs) + TickLogs(old(steps), old(index), |selected.value.steps|, at)
      ensures finished <==> old(index) + 1 >= |selected.value.steps|
      ensures old(Valid()) ==> Valid()
    {
      ghost var v := View();
      var n := |selected.value.steps|;
      var prev := index;
      var marked := Advance(steps, prev);
      logs := logs + TickLogs(steps, prev, n, at);
      finished := prev + 1 >= n;
      if finished {
        isRunning := false;
      } else {
        index := prev + 1;
      }
      steps := marked;
      assert View() == TickView(v);
      if RunValid(v) {
        TickKeepsValid(v);
      }
    }

    /** The end of a run: the outcome is folded into the stored analytics,
        and the session shows the new snapshot. */
    method RecordCompletion(o: RunOutcome, timestamp: string)
      modifies this`analytics, store`analyticsItem
      ensures store.analyticsItem == Some(RecordRun(old(store.GetAnalytics()), o, timestamp))
      ensures analytics == store.analyticsItem
      ensures old(Valid()) ==> Valid()
    {
      ghost var v := View();
      var a := store.UpdateAnalytics(o, timestamp);
      analytics := Some(a);
      assert View() == v;
    }

    /** `handleSaveWorkflow`: the store saves the workflow (replacing one with
        the same id) and the list shows built-ins followed by the store's
        custom workflows. */
    method SaveWorkflow(w: Workflow, at: Instant)
      modifies this`workflows, this`logs, store`customWorkflows
      ensures store.customWorkflows == Upsert(old(store.customWorkflows), w)
      ensures workflows == builtins + store.customWorkflows
      ensures logs == old(logs) + [Entry(SavedMessage(w), Success, at)]
      ensures old(Valid()) ==> Valid()
      ensures old(store.Valid()) ==> store.Valid()
    {
      ghost var v := View();
      var custom := store.SaveCustomWorkflow(w);
      workflows := builtins + custom;
      AddLog(SavedMessage(w), Success, at);
      assert View() == v;
    }

    /** `handleDeleteWorkflow` as written: the selection and its statuses
        are dropped when the deleted workflow is the selected one, but the
        run flags are left alone, so deleting it during a run leaves the
        session running with nothing selected. */
    method DeleteWorkflowAsWritten(id: string, at: Instant)
      modifies this`workflows, this`selected, this`steps, this`logs, store`customWorkflows
      ensures store.customWorkflows == Delete(old(store.customWorkflows), id)
      ensures workflows == builtins + store.customWorkflows
      ensures old(selected).Some? && old(selected).value.id == id ==> selected == None && steps == []
      ensures !(old(selected).Some? && old(selected).value.id == id) ==> selected == old(selected) && steps == old(steps)
      ensures logs == old(logs) + [Entry(DeletedMessage, Warning, at)]
      ensures old(Valid()) && !(isRunning && old(selected).Some? && old(selected).value.id == id) ==> Valid()
      ensures isRunning && old(selected).Some? && old(selected).value.id == id ==> Stuck()
    {
      DeleteFromStore(id);
      if selected.Some? && selected.value.id == id {
        selected := None;
        steps := [];
      }
      AddLog(DeletedMessage, Warning, at);
    }

    /** `handleDeleteWorkflow`, with the run stopped when the selected
        workflow is the one deleted; every other effect is as written. */
    method DeleteWorkflow(id: string, at: Instant)
      modifies this`workflows, this`selected, this`steps, this`isRunning, this`isPaused, this`logs
      modifies store`customWorkflows
      ensures store.customWorkflows == Delete(old(store.customWorkflows), id)
      ensures workflows == builtins + store.customWorkflows
      ensures old(selected).Some? && old(selected).value.id == id ==>
        selected == None && steps == [] && !isRunning && !isPaused
      ensures !(old(selected).Some? && old(selected).value.id == id) ==>
        && selected == old(selected) && steps == old(steps)
        && isRunning == old(isRunning) && isPaused == old(isPaused)
      ensures logs == old(logs) + [Entry(DeletedMessage, Warning, at)]
      ensures old(Valid()) ==> Valid()
      ensures old(store.Valid()) ==> store.Valid()
    {
      DeleteFromStore(id);
      if selected.Some? && selected.value.id == id {
        Deselect();
      }
      AddLog(DeletedMessage, Warning, at);
    }

    /** The store side of `handleDeleteWorkflow`: the store drops the id
        and the list shows built-ins followed by what the store keeps. */
    method DeleteFromStore(id: string)
      modifies this`workflows, store`customWorkflows
      ensures store.customWorkflows == Delete(old(store.customWorkflows), id)
      ensures workflows == builtins + store.customWorkflows
      ensures old(Valid()) ==> Valid()
      ensures old(store.Valid()) ==> store.Valid()
    {
      ghost var v := View();
      var custom := store.DeleteCustomWorkflow(id);
      workflows := builtins + custom;
      assert View() == v;
    }

    /** Drop the selection and stop the run. */
    method Deselect()
      modifies this`selected, this`steps, this`isRunning, this`isPaused
      ensures selected == None && steps == [] && !isRunning && !isPaused
      ensures old(Valid()) ==> Valid()
    {
      selected := None;
      steps := [];
      isRunning := false;
      isPaused := false;
    }

    /** `toggleTheme`: switch between dark and light and store the choice. */
    method ToggleTheme()
      modifies this`theme, store`themeItem
      ensures theme == OtherTheme(old(theme)) && store.themeItem == Some(theme)
      ensures old(Valid()) ==> Valid()
    {
      ghost var v := View();
      theme := OtherTheme(theme);
      store.SetTheme(theme);
      assert View() == v;
    }

    /** `clearLogs`. */
    method ClearLogs()
      modifies this`logs
      ensures logs == []
      ensures old(Valid()) ==> Valid()
    {
      ghost var v := View();
      logs := [];
      assert View() == v;
    }

    /** The `S` shortcut's speed change. */
    method CycleSpeed()
      modifies this`speed
      ensures speed == NextSpeed(old(speed)) && SpeedKey(speed).Some?
      ensures old(Valid()) ==> Valid()
    {
      ghost var v := View();
      speed := NextSpeed(speed);
      assert View() == v;
    }
  }

  /** The delete-while-running discrepancy, from a fresh store: save a
      workflow, select it, start it and delete it before it finishes. The
      handler as written leaves the session stuck. */
  method DeleteWhileRunningAsWritten(w: Workflow, at: Instant) returns (stuck: bool)
    ensures stuck
  {
    var store := new Store();
    var session := new Session(store, []);
    session.SaveWorkflow(w, at);
    session.SelectWorkflow(w, at);
    session.Start(at);
    session.DeleteWorkflowAsWritten(w.id, at);
    stuck := session.Stuck();
  }

  /** The same scenario with the corrected handler: the run stops, and the
      session can select and start another workflow. */
  method DeleteWhileRunning(w: Workflow, other: Workflow, at: Instant) returns (stuck: bool, restarted: bool)
    ensures !stuck && restarted
  {
    var store := new Store();
    var session := new Session(store, []);
    session.SaveWorkflow(w, at);
    session.SelectWorkflow(w, at);
    session.Start(at);
    session.DeleteWorkflow(w.id, at);
    stuck := session.Stuck();
    session.SelectWorkflow(other, at);
    session.Start(at);
    restarted := session.isRunning && session.selected == Some(other);
  }
}
