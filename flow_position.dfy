/**
 * Flow positions: predicates over the runner's latest step run that decide whether a flow may
 * start or continue. They read only the latest step and change nothing.
 */
module FlowPositions {
  import opened Wrappers
  import opened ModelGraph

  /** After(S): the latest step run is S; After(no step) holds exactly when nothing has run yet. */
  predicate AfterHolds(target: Option<StepRef>, latest: Option<StepRef>) {
    target == latest
  }

  /**
   * The factory for an After position from an optional step: with a step, the position names
   * exactly that step (its use case and name); without one, it is the position at start.
   */
  function AfterFlowStep(step: Option<StepDef>): (k: PositionKind)
    ensures k.After?
    ensures step.None? <==> k.target.None?
    ensures step.Some? ==> k.target == Some(step.value.ref)
  {
    After(if step.None? then None else Some(step.value.ref))
  }

  /** InsteadOf(T): holds exactly when After(previous step of T in its flow) holds. */
  predicate InsteadOfHolds(model: Model, replaced: StepRef, latest: Option<StepRef>) {
    match Lookup(model, replaced)
    case Some(t) => AfterHolds(t.previousStepInFlow, latest)
    case None => false
  }

  predicate KindHolds(model: Model, kind: PositionKind, latest: Option<StepRef>) {
    match kind
    case After(target) => AfterHolds(target, latest)
    case InsteadOf(replaced) => InsteadOfHolds(model, replaced, latest)
    case Anytime => true
  }

  /** A position holds when its own kind holds or the latest step is one of its or-after steps. */
  predicate PositionHolds(model: Model, pos: FlowPosition, latest: Option<StepRef>) {
    KindHolds(model, pos.kind, latest) || (latest.Some? && latest.value in pos.orAfter)
  }

  /** Extends the position in place with the disjunct "or after `step`". */
  function OrAfter(pos: FlowPosition, step: StepRef): (r: FlowPosition)
    ensures r.kind == pos.kind && r.orAfter == pos.orAfter + [step]
  {
    pos.(orAfter := pos.orAfter + [step])
  }

  /** The at-start position: nothing has run yet. */
  lemma AtStartIffNothingRun(latest: Option<StepRef>)
    ensures AfterHolds(None, latest) <==> latest.None?
  {}

  /** When nothing has run yet, After(S) for a given step S is false. */
  lemma AfterStepFalseAtStart(s: StepRef)
    ensures !AfterHolds(Some(s), None)
  {}

  /** InsteadOf(T) is After(previous step of T): both directions, for any latest step. */
  lemma InsteadOfIsAfterPrevious(model: Model, t: StepDef, latest: Option<StepRef>)
    requires Lookup(model, t.ref) == Some(t)
    ensures InsteadOfHolds(model, t.ref, latest) <==> AfterHolds(t.previousStepInFlow, latest)
  {}

  /** If T is the first step of its flow, InsteadOf(T) holds exactly when no step has run yet. */
  lemma InsteadOfFirstStep(model: Model, t: StepDef, latest: Option<StepRef>)
    requires Lookup(model, t.ref) == Some(t) && t.previousStepInFlow.None?
    ensures InsteadOfHolds(model, t.ref, latest) <==> latest.None?
  {}

  /** Adding an or-after disjunct keeps the old disjuncts and adds exactly "latest is `step`". */
  lemma OrAfterAddsDisjunct(model: Model, pos: FlowPosition, step: StepRef, latest: Option<StepRef>)
    ensures PositionHolds(model, OrAfter(pos, step), latest)
        <==> PositionHolds(model, pos, latest) || latest == Some(step)
  {}
}
