/**
 * React while: a step of a flow that keeps reacting as long as a while-condition holds. Its
 * complete condition is the step's own condition and the while-condition, and building it turns
 * the step into a loop by adding "or after this same step" to the step's flow position, in place.
 */
module ReactWhileLoops {
  import opened Wrappers
  import opened Messages
  import opened ModelGraph
  import opened FlowPositions
  import opened StepPredicates

  /**
   * A step of a flow: its flow position and its own flow condition, if it has one. The step's
   * condition is built from the position object itself, so a change to the position is seen by
   * the condition.
   */
  class FlowStep {
    const ref: StepRef
    var flowPosition: FlowPosition
    var flowCondition: Option<Predicate>

    constructor (ref: StepRef, flowPosition: FlowPosition, flowCondition: Option<Predicate>)
      ensures this.ref == ref && this.flowPosition == flowPosition && this.flowCondition == flowCondition
    {
      this.ref := ref;
      this.flowPosition := flowPosition;
      this.flowCondition := flowCondition;
    }

    /** The step's condition: at its flow position, and its flow condition if it has one. */
    function Condition(): Predicate
      reads this
    {
      match flowCondition
      case Some(c) => And(AtPosition(flowPosition), c)
      case None => AtPosition(flowPosition)
    }
  }

  class ReactWhile {
    const step: FlowStep
    const reactWhileCondition: Predicate

    /**
     * Makes `step` react while `reactWhileCondition` holds: the step's position gains the
     * disjunct "or after `step`", and keeps all it held before.
     */
    constructor (step: FlowStep, reactWhileCondition: Predicate)
      modifies step
      ensures this.step == step && this.reactWhileCondition == reactWhileCondition
      ensures step.flowPosition == OrAfter(old(step.flowPosition), step.ref)
      ensures step.flowCondition == old(step.flowCondition)
      ensures forall model: Model, latest: Option<StepRef> ::
        PositionHolds(model, step.flowPosition, latest) <==>
          PositionHolds(model, old(step.flowPosition), latest) || latest == Some(step.ref)
    {
      this.step := step;
      this.reactWhileCondition := reactWhileCondition;
      new;
      ghost var before := step.flowPosition;
      CreateLoop(step);
      forall model: Model, latest: Option<StepRef>
        ensures PositionHolds(model, step.flowPosition, latest) <==>
          PositionHolds(model, before, latest) || latest == Some(step.ref)
      {
        OrAfterAddsDisjunct(model, before, step.ref, latest);
      }
    }

    /** Adds "or after `step`" to the step's own flow position object. */
    static method CreateLoop(step: FlowStep)
      modifies step`flowPosition
      ensures step.flowPosition == OrAfter(old(step.flowPosition), step.ref)
    {
      step.flowPosition := OrAfter(step.flowPosition, step.ref);
    }

    /** The step's condition and the while-condition. */
    function CompleteCondition(): Predicate
      reads this, step
    {
      And(step.Condition(), reactWhileCondition)
    }

    /**
     * The complete condition holds exactly when the runner is at the step's (looped) position,
     * the step's flow condition holds if it has one, and the while-condition holds.
     */
    function Test(ctx: Situation): (b: bool)
      reads this, step
      ensures b <==>
        PositionHolds(ctx.model, step.flowPosition, ctx.latest)
        && (step.flowCondition.Some? ==> Eval(step.flowCondition.value, ctx))
        && Eval(reactWhileCondition, ctx)
    {
      assert Eval(CompleteCondition(), ctx) <==> Eval(step.Condition(), ctx) && Eval(reactWhileCondition, ctx);
      assert Eval(step.Condition(), ctx) <==>
        PositionHolds(ctx.model, step.flowPosition, ctx.latest)
        && (step.flowCondition.Some? ==> Eval(step.flowCondition.value, ctx));
      Eval(CompleteCondition(), ctx)
    }

    function GetReactWhileCondition(): Predicate
      reads this
    {
      reactWhileCondition
    }
  }

  /** A model step whose predicate ends in a while-condition that is false cannot react. */
  lemma WhileConditionFalseBlocks(ctx: Situation, t: StepDef, cls: MessageClass, stepCondition: Predicate, w: Predicate)
    requires t.stepPredicate == And(stepCondition, w) && !Eval(w, ctx)
    ensures !Eligible(ctx, t, cls)
  {
  }

  /**
   * The step of a react-while loop, just after it ran itself, could react again exactly when its
   * own flow condition (if it has one) and the while-condition hold, its actor and message class
   * matching: `t` is the model step that carries the loop's complete condition.
   */
  lemma LoopReentersAfterItself(ctx: Situation, t: StepDef, cls: MessageClass, rw: ReactWhile, pos: FlowPosition)
    requires t.ref == rw.step.ref && t.stepPredicate == rw.CompleteCondition()
    requires rw.step.flowPosition == OrAfter(pos, t.ref)
    requires ctx.latest == Some(t.ref) && ActorMatches(ctx, t) && IsSameOrSubclass(cls, t.messageClass)
    ensures CouldReact(ctx, t, cls) <==>
      (rw.step.flowCondition.Some? ==> EvalGuardsAside(rw.step.flowCondition.value, ctx))
      && EvalGuardsAside(rw.reactWhileCondition, ctx)
  {
    OrAfterAddsDisjunct(ctx.model, pos, t.ref, ctx.latest);
    assert PositionHolds(ctx.model, rw.step.flowPosition, ctx.latest);
    assert EvalGuardsAside(rw.step.Condition(), ctx) <==>
      (rw.step.flowCondition.Some? ==> EvalGuardsAside(rw.step.flowCondition.value, ctx));
  }

}
