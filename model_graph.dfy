/**
 * The immutable model graph the runner works on: use-case steps with their flow linkage, actors,
 * accepted message class, eligibility predicate (`stepPredicate`) and named reaction.
 */
module ModelGraph {
  import opened Wrappers
  import opened Messages

  /** An actor (a user group, or the model's system actor), identified as the object it is. */
  datatype Actor = Actor(id: nat)

  /**
   * The identity of a step object. A step's name is unique within its use case, so the pair of
   * use case and name denotes the same step; the runner's "latest step run" is an optional StepRef.
   */
  datatype StepRef = StepRef(id: nat)

  /**
   * Where a flow may start or continue: after a step (`None` is "no step has run yet", the
   * position at start), instead of a step, or at any time.
   */
  datatype PositionKind =
    | After(target: Option<StepRef>)
    | InsteadOf(replaced: StepRef)
    | Anytime

  /**
   * A flow position with the extra "or after step S" disjuncts that looping (react while) and
   * jumps add to it after it has been built.
   */
  datatype FlowPosition = FlowPosition(kind: PositionKind, orAfter: seq<StepRef>)

  /**
   * A step's eligibility predicate, composed of flow positions, named user conditions (whose
   * truth is up to the application), the determinism guard, and conjunction.
   */
  datatype Predicate =
    | Always
    | AtPosition(position: FlowPosition)
    | Condition(name: string)
    | NoOtherStepCouldReactThan(step: StepRef)
    | And(left: Predicate, right: Predicate)

  /**
   * One step of the model as the runner sees it. `actors` holds the actors that may cause the
   * step to react, `messageClass` the class of messages it accepts (RunnerClass for an
   * autonomous system step), `reaction` the name of its system reaction, if it has one.
   */
  datatype StepDef = StepDef(
    ref: StepRef,
    useCase: string,
    name: string,
    previousStepInFlow: Option<StepRef>,
    actors: seq<Actor>,
    messageClass: MessageClass,
    stepPredicate: Predicate,
    reaction: Option<string>)

  /** All steps of all use cases, in declaration order, and the model's two default actors. */
  datatype Model = Model(steps: seq<StepDef>, userActor: Actor, systemActor: Actor)

  /** The first step of the model that `ref` identifies, if there is one. */
  function Lookup(model: Model, ref: StepRef): Option<StepDef> {
    LookupFrom(model.steps, ref, 0)
  }

  function LookupFrom(steps: seq<StepDef>, ref: StepRef, i: nat): Option<StepDef>
    requires i <= |steps|
    decreases |steps| - i
  {
    if i == |steps| then None
    else if steps[i].ref == ref then Some(steps[i])
    else LookupFrom(steps, ref, i + 1)
  }

  /** Lookup finds a step of the model with that reference, and fails only if there is none. */
  lemma LookupIsSound(model: Model, ref: StepRef)
    ensures Lookup(model, ref).Some? ==>
      Lookup(model, ref).value in model.steps && Lookup(model, ref).value.ref == ref
    ensures Lookup(model, ref).None? ==> forall j :: 0 <= j < |model.steps| ==> model.steps[j].ref != ref
  {
    LookupFromIsSound(model.steps, ref, 0);
  }

  lemma {:induction false} LookupFromIsSound(steps: seq<StepDef>, ref: StepRef, i: nat)
    requires i <= |steps|
    ensures LookupFrom(steps, ref, i).Some? ==>
      LookupFrom(steps, ref, i).value in steps[i..] && LookupFrom(steps, ref, i).value.ref == ref
    ensures LookupFrom(steps, ref, i).None? ==> forall j :: i <= j < |steps| ==> steps[j].ref != ref
    decreases |steps| - i
  {
    if i < |steps| && steps[i].ref != ref {
      LookupFromIsSound(steps, ref, i + 1);
      assert steps[i..] == [steps[i]] + steps[i + 1..];
    }
  }

  /** No two steps of the model share a reference: the builder's "duplicate element" rule. */
  ghost predicate UniqueRefs(model: Model) {
    forall i, j :: 0 <= i < j < |model.steps| ==> model.steps[i].ref != model.steps[j].ref
  }

  /** With unique references, looking up a step of the model finds that very step. */
  lemma {:induction false} LookupFindsStep(model: Model, i: nat)
    requires UniqueRefs(model) && i < |model.steps|
    ensures Lookup(model, model.steps[i].ref) == Some(model.steps[i])
  {
    LookupFromFinds(model, 0, i);
  }

  lemma {:induction false} LookupFromFinds(model: Model, k: nat, i: nat)
    requires UniqueRefs(model) && k <= i < |model.steps|
    ensures LookupFrom(model.steps, model.steps[i].ref, k) == Some(model.steps[i])
    decreases i - k
  {
    if k < i {
      assert model.steps[k].ref != model.steps[i].ref;
      LookupFromFinds(model, k + 1, i);
    }
  }
}
