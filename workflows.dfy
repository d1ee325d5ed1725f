/** The shapes of the workflow catalogue (src/data/workflows.js): a workflow
    is a named, ordered sequence of steps; a step taking part in a run carries
    one of four statuses; playback speeds name a tick interval. The built-in
    workflow contents are data, not logic, and are passed in where needed. */
module Workflows {
  import opened Common

  datatype Step = Step(id: string, title: string, description: string)

  datatype Workflow = Workflow(id: string, name: string, description: string, steps: seq<Step>)

  /** `stepStatuses`: pending, running, completed, error. */
  datatype StepStatus = Pending | Running | Completed | Error

  /** The keys of `simulationSpeeds`. */
  datatype SpeedName = Slow | Normal | Fast

  /** Milliseconds between ticks for each speed: two seconds, one second
      and half a second. */
  function IntervalMs(speed: SpeedName): (ms: nat)
    ensures speed == Slow ==> ms == 2000
    ensures speed == Normal ==> ms == 1000
    ensures speed == Fast ==> ms == 500
  {
    match speed
    case Slow => 2000
    case Normal => 1000
    case Fast => 500
  }

  /** `simulationSpeeds[speed]` for a speed held as a string: only the three
      upper-case keys name an interval. */
  function SpeedKey(speed: string): (r: Option<SpeedName>)
    ensures r == Some(Slow) <==> speed == "SLOW"
    ensures r == Some(Normal) <==> speed == "NORMAL"
    ensures r == Some(Fast) <==> speed == "FAST"
  {
    if speed == "SLOW" then Some(Slow)
    else if speed == "NORMAL" then Some(Normal)
    else if speed == "FAST" then Some(Fast)
    else None
  }

  /** The ids of a workflow sequence, in order. */
  function Ids(ws: seq<Workflow>): (ids: seq<string>)
    ensures |ids| == |ws| && forall i :: 0 <= i < |ws| ==> ids[i] == ws[i].id
  {
    seq(|ws|, i requires 0 <= i < |ws| => ws[i].id)
  }

  /** No two workflows share an id. */
  ghost predicate UniqueIds(ws: seq<Workflow>) {
    Distinct(Ids(ws))
  }
}
