/**
 * The use case step as an object. Its name, use case and previous step in its flow are fixed when
 * it is created; its actors (the `as` part), the class of messages it accepts (the `user` part),
 * its reaction (the `system` part) and its predicate are set afterwards, in place, by the model
 * builder.
 */
module UseCaseSteps {
  import opened Wrappers
  import opened Messages
  import opened ModelGraph
  import opened StepPredicates

  class UseCaseStep {
    const ref: StepRef
    const name: string
    const useCase: string
    /** The step created before this one in its flow; absent for the first step of a flow. */
    const previousStepInFlow: Option<StepRef>
    /** The default actors of the use case model the step belongs to. */
    const userActor: Actor
    const systemActor: Actor

    var asPart: Option<seq<Actor>>
    var userPart: Option<MessageClass>
    var systemPart: Option<string>
    var stepPredicate: Predicate

    /**
     * A new step of a flow. Without an explicit predicate it gets the default one: after the
     * previous step in its flow (at start for a first step), unless another step could react.
     */
    constructor (ref: StepRef, name: string, useCase: string, previousStepInFlow: Option<StepRef>,
                 explicitPredicate: Option<Predicate>, userActor: Actor, systemActor: Actor)
      ensures this.ref == ref && this.name == name && this.useCase == useCase
      ensures this.previousStepInFlow == previousStepInFlow
      ensures this.userActor == userActor && this.systemActor == systemActor
      ensures explicitPredicate.Some? ==> stepPredicate == explicitPredicate.value
      ensures explicitPredicate.None? ==> stepPredicate == DefaultPredicate(ref, previousStepInFlow)
      ensures asPart == None && userPart == None && systemPart == None
    {
      this.ref := ref;
      this.name := name;
      this.useCase := useCase;
      this.previousStepInFlow := previousStepInFlow;
      this.userActor := userActor;
      this.systemActor := systemActor;
      stepPredicate := explicitPredicate.GetOr(DefaultPredicate(ref, previousStepInFlow));
      asPart := None;
      userPart := None;
      systemPart := None;
    }

    /** The step as the runner sees it, once its actors and its message class are set. */
    function Def(): Option<StepDef>
      reads this
    {
      if asPart.Some? && userPart.Some? then
        Some(StepDef(ref, useCase, name, previousStepInFlow, asPart.value, userPart.value, stepPredicate, systemPart))
      else None
    }

    /** Replaces the `as` part: the actors that may cause the step to react. */
    method SetAs(actors: seq<Actor>)
      modifies this`asPart
      ensures asPart == Some(actors)
    {
      asPart := Some(actors);
    }

    /** Replaces the `user` part: the class of messages the step accepts. */
    method SetUser(cls: MessageClass)
      modifies this`userPart
      ensures userPart == Some(cls)
    {
      userPart := Some(cls);
    }

    /** Replaces the `system` part: the step's reaction. */
    method SetSystem(reaction: string)
      modifies this`systemPart
      ensures systemPart == Some(reaction)
    {
      systemPart := Some(reaction);
    }

    /** Replaces the step's complete predicate. */
    method SetPredicate(p: Predicate)
      modifies this`stepPredicate
      ensures stepPredicate == p
    {
      stepPredicate := p;
    }

    /** Creates the `as` part for the given actors. */
    method As(actors: seq<Actor>)
      modifies this`asPart
      ensures asPart == Some(actors)
    {
      SetAs(actors);
    }

    /**
     * Binds the step to the model's default user actor, accepting messages of class `cls`: the
     * step could then react exactly when the runner acts for the user actor or the user actor is
     * the model's system actor, to `cls` and its subclasses, where its predicate (guards aside)
     * holds.
     */
    method User(cls: MessageClass)
      modifies this`asPart, this`userPart
      ensures asPart == Some([userActor]) && userPart == Some(cls)
      ensures Def().Some?
      ensures forall ctx: Situation, c: MessageClass :: CouldReact(ctx, Def().value, c) <==>
        (ctx.actor == userActor || ctx.model.systemActor == userActor) && IsSameOrSubclass(c, cls) && EvalGuardsAside(stepPredicate, ctx)
    {
      As([userActor]);
      SetUser(cls);
    }

    /**
     * Binds the step to the model's default system actor, accepting events or exceptions of
     * class `cls`: the step could then react when the runner acts for that actor or when it is
     * the model's system actor, to `cls` and its subclasses, where its predicate (guards aside)
     * holds. In a model whose system actor is this same actor, that means whatever actor the
     * runner acts for.
     */
    method Handle(cls: MessageClass)
      modifies this`asPart, this`userPart
      ensures asPart == Some([systemActor]) && userPart == Some(cls)
      ensures Def().Some?
      ensures forall ctx: Situation, c: MessageClass :: CouldReact(ctx, Def().value, c) <==>
        (ctx.actor == systemActor || ctx.model.systemActor == systemActor) && IsSameOrSubclass(c, cls) && EvalGuardsAside(stepPredicate, ctx)
      ensures forall ctx: Situation, c: MessageClass :: ctx.model.systemActor == systemActor ==>
        (CouldReact(ctx, Def().value, c) <==> IsSameOrSubclass(c, cls) && EvalGuardsAside(stepPredicate, ctx))
    {
      As([systemActor]);
      SetUser(cls);
    }
  }

  /**
   * Building a basic-flow step the way the model builder does, `.step(name).user(cls)
   * .system(reaction)`: the runner sees a step of the user actor, accepting `cls`, with the
   * default predicate and the reaction.
   */
  method BuildUserStep(ref: StepRef, name: string, useCase: string, previous: Option<StepRef>, cls: MessageClass,
                       reaction: string, userActor: Actor, systemActor: Actor)
    returns (step: UseCaseStep)
    ensures fresh(step)
    ensures step.Def() == Some(StepDef(ref, useCase, name, previous, [userActor], cls,
                                       DefaultPredicate(ref, previous), Some(reaction)))
  {
    step := new UseCaseStep(ref, name, useCase, previous, None, userActor, systemActor);
    step.User(cls);
    step.SetSystem(reaction);
  }
}
