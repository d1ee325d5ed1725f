/** The custom workflow builder of src/components/Builder.jsx: a form holding
    a name, a description, the steps entered so far and the inputs for the
    next step. Steps are appended, removed by id and moved one place up or
    down; saving turns a valid form into a workflow and clears it. */
module Builder {
  import opened Common
  import opened Text
  import opened Workflows

  /** The two directions `moveStep` is called with. */
  datatype Direction = Up | Down

  const NoDescription := "No description"
  const CustomDescription := "Custom workflow"

  /** `s || fallback` for a string: only the empty string is falsy. */
  function OrElse(s: string, fallback: string): string {
    if s == "" then fallback else s
  }

  /** The step `addStep` appends: its id comes from the clock, its title and
      description are trimmed, and an empty description is replaced. */
  function NewStep(title: string, description: string, now: int): (s: Step)
    ensures |s.id| > 5 && s.id[..5] == "step-"
    ensures s.title != "" <==> !AllWhitespace(title)
    ensures s.description != ""
  {
    Step("step-" + IntToString(now), Trim(title), OrElse(Trim(description), NoDescription))
  }

  /** A step added from a title that is not blank has a non-empty title and
      description, neither of which has whitespace around it. */
  lemma NewStepTidy(title: string, description: string, now: int)
    requires Trim(title) != ""
    ensures var s := NewStep(title, description, now);
      && s.title != "" && Trim(s.title) == s.title
      && s.description != "" && Trim(s.description) == s.description
  {
    TrimIdempotent(title);
    TrimIdempotent(description);
    LetterNotWhitespace(NoDescription[0]);
    LetterNotWhitespace(NoDescription[|NoDescription| - 1]);
    TrimOfTrimmed(NoDescription);
  }

  /** The workflow `handleSave` hands over: its id comes from the clock, its
      name and description are trimmed, and an empty description is
      replaced. */
  function BuildWorkflow(name: string, description: string, steps: seq<Step>, now: int): (w: Workflow)
    ensures |w.id| > 7 && w.id[..7] == "custom-"
    ensures w.name != "" <==> !AllWhitespace(name)
    ensures w.description != ""
    ensures w.steps == steps
  {
    Workflow("custom-" + IntToString(now), Trim(name), OrElse(Trim(description), CustomDescription), steps)
  }

  /** A saved workflow's name and description are non-empty and carry no
      surrounding whitespace. */
  lemma BuiltWorkflowTidy(name: string, description: string, steps: seq<Step>, now: int)
    requires Trim(name) != ""
    ensures var w := BuildWorkflow(name, description, steps, now);
      && w.name != "" && Trim(w.name) == w.name
      && w.description != "" && Trim(w.description) == w.description
  {
    TrimIdempotent(name);
    TrimIdempotent(description);
    LetterNotWhitespace(CustomDescription[0]);
    LetterNotWhitespace(CustomDescription[|CustomDescription| - 1]);
    TrimOfTrimmed(CustomDescription);
  }

  function KeepOtherSteps(id: string): Step -> bool {
    (s: Step) => s.id != id
  }

  /** `steps.filter(s => s.id !== stepId)`. */
  function RemoveId(steps: seq<Step>, id: string): (r: seq<Step>)
    ensures |r| <= |steps|
  {
    Filter(steps, KeepOtherSteps(id))
  }

  /** Removing drops every step with the id and keeps every other one;
      nothing is added, and an absent id changes nothing. */
  lemma RemoveIdDrops(steps: seq<Step>, id: string)
    ensures forall i :: 0 <= i < |RemoveId(steps, id)| ==> RemoveId(steps, id)[i].id != id
    ensures forall i :: 0 <= i < |RemoveId(steps, id)| ==> RemoveId(steps, id)[i] in steps
    ensures forall i :: 0 <= i < |steps| && steps[i].id != id ==> steps[i] in RemoveId(steps, id)
    ensures (forall i :: 0 <= i < |steps| ==> steps[i].id != id) ==> RemoveId(steps, id) == steps
  {
    FilterMembers(steps, KeepOtherSteps(id));
    if forall i :: 0 <= i < |steps| ==> steps[i].id != id {
      FilterKeepsAll(steps, KeepOtherSteps(id));
    }
  }

  /** Removing works piecewise, so the remaining steps keep their order. */
  lemma RemoveIdKeepsOrder(a: seq<Step>, b: seq<Step>, id: string)
    ensures RemoveId(a + b, id) == RemoveId(a, id) + RemoveId(b, id)
  {
    FilterAppend(a, b, KeepOtherSteps(id));
  }

  /** `moveStep`: the step at `index` trades places with its neighbour above
      or below; at the top (up) or the bottom (down) nothing moves. */
  function Moved(steps: seq<Step>, index: int, dir: Direction): (r: seq<Step>)
    requires 0 <= index < |steps|
    ensures |r| == |steps|
  {
    if dir == Up && index > 0 then
      steps[index := steps[index - 1]][index - 1 := steps[index]]
    else if dir == Down && index < |steps| - 1 then
      steps[index := steps[index + 1]][index + 1 := steps[index]]
    else
      steps
  }

  /** The neighbour a step trades places with, or the step itself at an edge. */
  function Target(n: int, index: int, dir: Direction): int {
    if dir == Up && index > 0 then index - 1
    else if dir == Down && index < n - 1 then index + 1
    else index
  }

  /** A move exchanges the step with its target and leaves every other
      position alone, so the steps are a permutation of the old ones. */
  lemma MovedSwaps(steps: seq<Step>, index: int, dir: Direction)
    requires 0 <= index < |steps|
    ensures var r, t := Moved(steps, index, dir), Target(|steps|, index, dir);
      && |r| == |steps| && 0 <= t < |steps|
      && r[index] == steps[t] && r[t] == steps[index]
      && (forall i :: 0 <= i < |steps| && i != index && i != t ==> r[i] == steps[i])
      && multiset(r) == multiset(steps)
  {
    var t := Target(|steps|, index, dir);
    if t != index {
      var r := Moved(steps, index, dir);
      var mid := steps[index := steps[t]];
      assert r == mid[t := steps[index]];
      assert multiset(mid) == multiset(steps) - multiset{steps[index]} + multiset{steps[t]};
      assert multiset(r) == multiset(mid) - multiset{mid[t]} + multiset{steps[index]};
    }
  }

  /** Moving a step up and then moving it back down restores the list. */
  lemma MoveUpThenDown(steps: seq<Step>, index: int)
    requires 0 < index < |steps|
    ensures Moved(Moved(steps, index, Up), index - 1, Down) == steps
  {
    var up := Moved(steps, index, Up);
    MovedSwaps(steps, index, Up);
    MovedSwaps(up, index - 1, Down);
    var back := Moved(up, index - 1, Down);
    assert forall i :: 0 <= i < |steps| ==> back[i] == steps[i];
  }

  class Form {
    var name: string
    var description: string
    var steps: seq<Step>
    var newStepTitle: string
    var newStepDescription: string

    constructor ()
      ensures name == "" && description == "" && steps == []
      ensures newStepTitle == "" && newStepDescription == ""
    {
      name := "";
      description := "";
      steps := [];
      newStepTitle := "";
      newStepDescription := "";
    }

    /** `addStep`: a blank title adds nothing; otherwise one step is appended
        and the step inputs are cleared. */
    method AddStep(now: int)
      modifies this`steps, this`newStepTitle, this`newStepDescription
      ensures Trim(old(newStepTitle)) == "" ==> unchanged(this)
      ensures Trim(old(newStepTitle)) != "" ==>
        && steps == old(steps) + [NewStep(old(newStepTitle), old(newStepDescription), now)]
        && newStepTitle == "" && newStepDescription == ""
    {
      if Trim(newStepTitle) == "" {
        return;
      }
      var step := NewStep(newStepTitle, newStepDescription, now);
      steps := steps + [step];
      newStepTitle := "";
      newStepDescription := "";
    }

    /** `removeStep`. */
    method RemoveStep(id: string)
      modifies this`steps
      ensures steps == RemoveId(old(steps), id)
    {
      steps := RemoveId(steps, id);
    }

    /** `moveStep`: copy the list, swap two entries of the copy, store it. */
    method MoveStep(index: int, dir: Direction)
      requires 0 <= index < |steps|
      modifies this`steps
      ensures steps == Moved(old(steps), index, dir)
      ensures multiset(steps) == multiset(old(steps))
    {
      var copy := steps;
      if dir == Up && index > 0 {
        var moving := copy[index];
        copy := copy[index := copy[index - 1]];
        copy := copy[index - 1 := moving];
      } else if dir == Down && index < |copy| - 1 {
        var moving := copy[index];
        copy := copy[index := copy[index + 1]];
        copy := copy[index + 1 := moving];
      }
      MovedSwaps(steps, index, dir);
      steps := copy;
    }

    /** `isValid`: a name that is not blank and at least one step. */
    predicate IsValid()
      reads this`name, this`steps
      ensures IsValid() <==> !AllWhitespace(name) && |steps| > 0
    {
      Trim(name) != "" && |steps| > 0
    }

    /** `handleSave`: an invalid form saves nothing; a valid one yields the
        workflow passed to `onSave` and is cleared (the step inputs are left
        as they are). */
    method HandleSave(now: int) returns (saved: Option<Workflow>)
      modifies this`name, this`description, this`steps
      ensures saved.Some? <==> old(IsValid())
      ensures saved.None? ==> unchanged(this)
      ensures saved.Some? ==>
        && saved.value == BuildWorkflow(old(name), old(description), old(steps), now)
        && |saved.value.steps| > 0
        && name == "" && description == "" && steps == []
    {
      if Trim(name) == "" || |steps| == 0 {
        return None;
      }
      saved := Some(BuildWorkflow(name, description, steps, now));
      name := "";
      description := "";
      steps := [];
    }
  }
}
