/**
 * The step tree both contribution wizards render: steps with an optional
 * computed status and optional sub-steps, the submit gate computed from the
 * top-level statuses, and the flattened id order (`stepIds`) in which each
 * step is followed by its sub-steps.
 */
module WizardSteps {
  import opened Wrappers

  /** The wizard's `StepStatus`. */
  datatype StepStatus = Default | Error | Success

  /** A sub-step; its status may be absent. */
  datatype SubStep = SubStep(id: string, status: Option<StepStatus>)

  /** A step; its status and its list of sub-steps may be absent. */
  datatype Step = Step(id: string, status: Option<StepStatus>, subSteps: Option<seq<SubStep>>)

  /** The sub-steps of a step, none when the list is absent. */
  function Children(step: Step): seq<SubStep> {
    step.subSteps.GetOr([])
  }

  /** The ids of a list of sub-steps, in order. */
  function SubIds(subs: seq<SubStep>): (ids: seq<string>)
    ensures |ids| == |subs|
    ensures forall j :: 0 <= j < |subs| ==> ids[j] == subs[j].id
  {
    if subs == [] then [] else SubIds(subs[..|subs| - 1]) + [subs[|subs| - 1].id]
  }

  /** What the flattening contributes for one step: its id, then its sub-step ids. */
  function Block(step: Step): seq<string> {
    [step.id] + SubIds(Children(step))
  }

  /** Reference definition of `stepIds`: the blocks of the steps, in order. */
  function FlatIds(steps: seq<Step>): seq<string> {
    if steps == [] then [] else FlatIds(steps[..|steps| - 1]) + Block(steps[|steps| - 1])
  }

  /** Number of sub-steps over a list of steps. */
  function TotalSubSteps(steps: seq<Step>): nat {
    if steps == [] then 0 else TotalSubSteps(steps[..|steps| - 1]) + |Children(steps[|steps| - 1])|
  }

  /** The position in `stepIds` of top-level step `k`. */
  function FlatIndex(steps: seq<Step>, k: nat): nat
    requires k <= |steps|
  {
    k + TotalSubSteps(steps[..k])
  }

  /** The reduce that builds `stepIds`: push each step id, then push its sub-step ids when it has any. */
  method FlattenStepIds(steps: seq<Step>) returns (acc: seq<string>)
    ensures acc == FlatIds(steps)
    ensures |acc| == |steps| + TotalSubSteps(steps)
  {
    acc := [];
    var i := 0;
    while i < |steps|
      invariant 0 <= i <= |steps|
      invariant acc == FlatIds(steps[..i])
    {
      var nextStep := steps[i];
      FlatIdsSnoc(steps, i);
      acc := acc + [nextStep.id];
      if nextStep.subSteps.Some? && |nextStep.subSteps.value| > 0 {
        acc := acc + SubIds(nextStep.subSteps.value);
      }
      i := i + 1;
    }
    assert steps[..|steps|] == steps;
    FlatIdsLength(steps);
  }

  /** One more step appends its block. */
  lemma {:induction false} FlatIdsSnoc(steps: seq<Step>, i: nat)
    requires i < |steps|
    ensures FlatIds(steps[..i + 1]) == FlatIds(steps[..i]) + [steps[i].id] + SubIds(Children(steps[i]))
  {
    assert steps[..i + 1][..i] == steps[..i];
  }

  lemma {:induction false} FlatIdsLength(steps: seq<Step>)
    ensures |FlatIds(steps)| == |steps| + TotalSubSteps(steps)
  {
    if steps != [] {
      FlatIdsLength(steps[..|steps| - 1]);
    }
  }

  lemma {:induction false} FlatIdsAppend(a: seq<Step>, b: seq<Step>)
    ensures FlatIds(a + b) == FlatIds(a) + FlatIds(b)
    decreases |b|
  {
    if b == [] {
      assert a + b == a;
    } else {
      var init, last := b[..|b| - 1], b[|b| - 1];
      assert b == init + [last];
      assert a + b == (a + init) + [last];
      FlatIdsAppend(a, init);
      FlatIdsLast(a + init, last);
      FlatIdsLast(init, last);
    }
  }

  /** A step added at the end adds its block at the end. */
  lemma {:induction false} FlatIdsLast(steps: seq<Step>, step: Step)
    ensures FlatIds(steps + [step]) == FlatIds(steps) + Block(step)
  {
    assert (steps + [step])[..|steps|] == steps;
  }

  lemma {:induction false} TotalSubStepsAppend(a: seq<Step>, b: seq<Step>)
    ensures TotalSubSteps(a + b) == TotalSubSteps(a) + TotalSubSteps(b)
    decreases |b|
  {
    if b == [] {
      assert a + b == a;
    } else {
      var ab := a + b;
      var init := b[..|b| - 1];
      assert ab[..|ab| - 1] == a + init;
      assert ab[|ab| - 1] == b[|b| - 1];
      TotalSubStepsAppend(a, init);
    }
  }

  /** In `stepIds`, top-level step `k` stands at `FlatIndex(steps, k)`. */
  lemma {:induction false} StepIdPosition(steps: seq<Step>, k: nat)
    requires k < |steps|
    ensures FlatIndex(steps, k) < |FlatIds(steps)|
    ensures FlatIds(steps)[FlatIndex(steps, k)] == steps[k].id
  {
    FlatIdsSplit(steps, k);
    FlatIdsLength(steps[..k]);
    BlockInContext(FlatIds(steps), FlatIds(steps[..k]), steps[k], FlatIds(steps[k + 1..]), FlatIndex(steps, k));
  }

  /** In `stepIds`, the sub-steps of top-level step `k` follow its id immediately, in order. */
  lemma {:induction false} SubStepIdPositions(steps: seq<Step>, k: nat)
    requires k < |steps|
    ensures FlatIndex(steps, k) + 1 + |Children(steps[k])| <= |FlatIds(steps)|
    ensures FlatIds(steps)[FlatIndex(steps, k) + 1..FlatIndex(steps, k) + 1 + |Children(steps[k])|]
      == SubIds(Children(steps[k]))
  {
    FlatIdsSplit(steps, k);
    FlatIdsLength(steps[..k]);
    BlockInContext(FlatIds(steps), FlatIds(steps[..k]), steps[k], FlatIds(steps[k + 1..]), FlatIndex(steps, k));
  }

  /** A step's block, put between two lists: its id first, then its sub-step ids. */
  lemma {:induction false} BlockInContext(ids: seq<string>, a: seq<string>, step: Step, c: seq<string>, n: nat)
    requires ids == a + Block(step) + c && n == |a|
    ensures n + 1 + |Children(step)| <= |ids|
    ensures ids[n] == step.id
    ensures ids[n + 1..n + 1 + |Children(step)|] == SubIds(Children(step))
  {
    assert ids == a + [step.id] + SubIds(Children(step)) + c;
    assert ids[n + 1..n + 1 + |Children(step)|] == SubIds(Children(step));
  }

  lemma {:induction false} FlatIdsSplit(steps: seq<Step>, k: nat)
    requires k < |steps|
    ensures FlatIds(steps) == FlatIds(steps[..k]) + Block(steps[k]) + FlatIds(steps[k + 1..])
  {
    var upto := steps[..k + 1];
    assert upto[..k] == steps[..k];
    assert steps == upto + steps[k + 1..];
    FlatIdsAppend(upto, steps[k + 1..]);
  }

  /** The flattening of a four-step tree, block by block. */
  lemma {:induction false} FlatIdsOfFour(steps: seq<Step>)
    requires |steps| == 4
    ensures FlatIds(steps) == Block(steps[0]) + Block(steps[1]) + Block(steps[2]) + Block(steps[3])
  {
    assert steps[..3][..2] == steps[..2];
    assert steps[..2][..1] == steps[..1];
    assert steps[..1][..0] == [];
    assert FlatIds(steps[..1]) == Block(steps[0]);
    assert FlatIds(steps[..2]) == FlatIds(steps[..1]) + Block(steps[1]);
    assert FlatIds(steps[..3]) == FlatIds(steps[..2]) + Block(steps[2]);
    assert steps[..4] == steps;
  }

  /** `steps.find((step) => step.status === 'error')`. */
  function FindError(steps: seq<Step>): (r: Option<Step>)
    ensures r.Some? ==> r.value in steps && r.value.status == Some(Error)
    ensures r.None? <==> forall k :: 0 <= k < |steps| ==> steps[k].status != Some(Error)
  {
    if steps == [] then None
    else if steps[0].status == Some(Error) then Some(steps[0])
    else
      var r := FindError(steps[1..]);
      assert forall k :: 1 <= k < |steps| ==> steps[k] == steps[1..][k - 1];
      r
  }

  /** `find` returns the first step in error: every step before it is not in error. */
  lemma {:induction false} FindErrorIsFirst(steps: seq<Step>)
    ensures FindError(steps).Some? ==>
      exists i :: 0 <= i < |steps| && steps[i] == FindError(steps).value
        && forall k :: 0 <= k < i ==> steps[k].status != Some(Error)
  {
    if steps != [] && steps[0].status != Some(Error) && FindError(steps).Some? {
      var rest := steps[1..];
      FindErrorIsFirst(rest);
      var i :| 0 <= i < |rest| && rest[i] == FindError(rest).value
        && forall k :: 0 <= k < i ==> rest[k].status != Some(Error);
      assert steps[i + 1] == FindError(steps).value;
      assert forall k :: 0 <= k < i + 1 ==> steps[k].status != Some(Error) by {
        forall k | 0 <= k < i + 1 ensures steps[k].status != Some(Error) {
          if k > 0 { assert steps[k] == rest[k - 1]; }
        }
      }
    }
  }

  /** The submit gate `!steps.find(...)`: open iff no top-level step computes to Error. */
  function SubmitEnabled(steps: seq<Step>): (r: bool)
    ensures r <==> forall k :: 0 <= k < |steps| ==> steps[k].status != Some(Error)
  {
    FindError(steps).None?
  }

  /** The gate never looks below the top level: swapping the sub-steps of any step leaves it as it was. */
  lemma {:induction false} SubmitIgnoresSubSteps(steps: seq<Step>, k: nat, subs: Option<seq<SubStep>>)
    requires k < |steps|
    ensures SubmitEnabled(steps[k := steps[k].(subSteps := subs)]) == SubmitEnabled(steps)
  {
    var steps' := steps[k := steps[k].(subSteps := subs)];
    assert forall j :: 0 <= j < |steps| ==> steps'[j].status == steps[j].status;
  }
}
