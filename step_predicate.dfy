/**
 * Step eligibility: evaluation of a step's predicate in a situation, the default predicate of a
 * step ("after its previous step in the flow unless interrupted by an alternative flow"), and the
 * determinism guard `NoOtherStepCouldReactThan`.
 */
module StepPredicates {
  import opened Wrappers
  import opened Messages
  import opened ModelGraph
  import opened FlowPositions

  /**
   * What eligibility depends on: the model, the runner's latest step run, the actor on whose
   * behalf the runner reacts, and the names of the user conditions that currently hold.
   */
  datatype Situation = Situation(model: Model, latest: Option<StepRef>, actor: Actor, holding: set<string>)

  /** Evaluates `p`, the determinism guard included. */
  predicate Eval(p: Predicate, ctx: Situation) {
    match p
    case Always => true
    case AtPosition(pos) => PositionHolds(ctx.model, pos, ctx.latest)
    case Condition(name) => name in ctx.holding
    case NoOtherStepCouldReactThan(s) => NoOtherStepFrom(ctx, s, ClassOf(ctx.model, s), 0)
    case And(l, r) => Eval(l, ctx) && Eval(r, ctx)
  }

  /**
   * Evaluates `p` with the determinism guard counted as satisfied: that is how the guard itself
   * looks at the other steps, re-running only their position, condition, actor and message-class
   * terms.
   */
  predicate EvalGuardsAside(p: Predicate, ctx: Situation) {
    match p
    case Always => true
    case AtPosition(pos) => PositionHolds(ctx.model, pos, ctx.latest)
    case Condition(name) => name in ctx.holding
    case NoOtherStepCouldReactThan(_) => true
    case And(l, r) => EvalGuardsAside(l, ctx) && EvalGuardsAside(r, ctx)
  }

  /** The class of messages the step `s` accepts (Object if `s` is not in the model). */
  function ClassOf(model: Model, s: StepRef): MessageClass {
    match Lookup(model, s)
    case Some(t) => t.messageClass
    case None => ObjectClass
  }

  /**
   * Step `t` names an actor the runner reacts for: the actor it acts as, or the model's system
   * actor, whose steps react to whatever message reaches the runner.
   */
  predicate ActorMatches(ctx: Situation, t: StepDef) {
    ctx.actor in t.actors || ctx.model.systemActor in t.actors
  }

  /**
   * Step `t` could react to a message of class `cls` on the situation's actor's behalf, leaving
   * the determinism guard aside.
   */
  predicate CouldReact(ctx: Situation, t: StepDef, cls: MessageClass) {
    ActorMatches(ctx, t) && IsSameOrSubclass(cls, t.messageClass) && EvalGuardsAside(t.stepPredicate, ctx)
  }

  /** No step from index `i` on, other than `s`, could react to a message of `s`'s class. */
  predicate NoOtherStepFrom(ctx: Situation, s: StepRef, cls: MessageClass, i: nat)
    requires i <= |ctx.model.steps|
    decreases |ctx.model.steps| - i
  {
    if i == |ctx.model.steps| then true
    else
      var t := ctx.model.steps[i];
      !(t.ref != s && CouldReact(ctx, t, cls)) && NoOtherStepFrom(ctx, s, cls, i + 1)
  }

  /** Step `t` is eligible for a message of class `cls`: actor, class and the full predicate. */
  predicate Eligible(ctx: Situation, t: StepDef, cls: MessageClass) {
    ActorMatches(ctx, t) && IsSameOrSubclass(cls, t.messageClass) && Eval(t.stepPredicate, ctx)
  }

  function AfterStep(s: StepRef): FlowPosition {
    FlowPosition(After(Some(s)), [])
  }

  const RunnerAtStart := FlowPosition(After(None), [])

  /**
   * The default predicate of a step `s` whose previous step in its flow is `previous`: after
   * that step, or at start for a first step, and no other step could react instead.
   */
  function DefaultPredicate(s: StepRef, previous: Option<StepRef>): Predicate {
    var afterPreviousStep := match previous case Some(p) => AfterStep(p) case None => RunnerAtStart;
    And(AtPosition(afterPreviousStep), NoOtherStepCouldReactThan(s))
  }

  /** The guard of `s` holds in `ctx`. */
  predicate GuardHolds(ctx: Situation, s: StepRef) {
    NoOtherStepFrom(ctx, s, ClassOf(ctx.model, s), 0)
  }

  /** A first step (no previous step): its default predicate is "at start AND guard". */
  lemma DefaultPredicateOfFirstStep(s: StepRef, ctx: Situation)
    ensures Eval(DefaultPredicate(s, None), ctx) <==> ctx.latest.None? && GuardHolds(ctx, s)
  {}

  /** Any later step: its default predicate is "after the previous step AND guard". */
  lemma DefaultPredicateOfLaterStep(s: StepRef, previous: StepRef, ctx: Situation)
    ensures Eval(DefaultPredicate(s, Some(previous)), ctx)
        <==> ctx.latest == Some(previous) && GuardHolds(ctx, s)
  {}

  /** Whenever T's own default position part holds, InsteadOf(T) holds too. */
  lemma InsteadOfEligibleWhereReplacedStepIs(t: StepDef, ctx: Situation)
    requires Lookup(ctx.model, t.ref) == Some(t)
    requires PositionHolds(ctx.model, FlowPosition(After(t.previousStepInFlow), []), ctx.latest)
    ensures Eval(AtPosition(FlowPosition(InsteadOf(t.ref), [])), ctx)
  {}

  /**
   * A flow position reads only the model and the latest step run: it does not depend on the
   * actor, the conditions that hold or the message.
   */
  lemma PositionReadsOnlyLatest(pos: FlowPosition, ctx1: Situation, ctx2: Situation)
    requires ctx1.model == ctx2.model && ctx1.latest == ctx2.latest
    ensures Eval(AtPosition(pos), ctx1) == Eval(AtPosition(pos), ctx2)
  {}

  /** The full predicate implies the predicate with the guards left aside. */
  lemma {:induction false} EvalImpliesGuardsAside(p: Predicate, ctx: Situation)
    requires Eval(p, ctx)
    ensures EvalGuardsAside(p, ctx)
  {
    match p
    case And(l, r) =>
      EvalImpliesGuardsAside(l, ctx);
      EvalImpliesGuardsAside(r, ctx);
    case _ =>
  }

  /** The guard of `s` rules out every other step at index `j` that could react to `s`'s class. */
  lemma {:induction false} NoOtherStepExcludes(ctx: Situation, s: StepRef, cls: MessageClass, i: nat, j: nat)
    requires i <= j < |ctx.model.steps|
    requires NoOtherStepFrom(ctx, s, cls, i)
    ensures ctx.model.steps[j].ref == s || !CouldReact(ctx, ctx.model.steps[j], cls)
    decreases j - i
  {
    if i < j {
      NoOtherStepExcludes(ctx, s, cls, i + 1, j);
    }
  }

  /** A step carries the default guard on itself. */
  predicate Guarded(t: StepDef) {
    t.stepPredicate.And? && t.stepPredicate.right == NoOtherStepCouldReactThan(t.ref)
  }

  /**
   * Determinism: two different steps that both carry their own guard are never both eligible
   * for the same message. The message class lies below both steps' classes, so one of the two
   * classes is below the other, and the guard of the step with the more specific class sees the
   * other step as a rival.
   */
  lemma GuardedStepsExcludeEachOther(ctx: Situation, i: nat, j: nat, m: Message)
    requires UniqueRefs(ctx.model) && i < |ctx.model.steps| && j < |ctx.model.steps| && i != j
    requires Guarded(ctx.model.steps[i]) && Guarded(ctx.model.steps[j])
    ensures !(Eligible(ctx, ctx.model.steps[i], m.cls) && Eligible(ctx, ctx.model.steps[j], m.cls))
  {
    var si, sj := ctx.model.steps[i], ctx.model.steps[j];
    if Eligible(ctx, si, m.cls) && Eligible(ctx, sj, m.cls) {
      LookupFindsStep(ctx.model, i);
      LookupFindsStep(ctx.model, j);
      assert i < j || j < i;
      assert si.ref != sj.ref;
      SuperclassesAreComparable(m.cls, si.messageClass, sj.messageClass);
      EvalImpliesGuardsAside(si.stepPredicate, ctx);
      EvalImpliesGuardsAside(sj.stepPredicate, ctx);
      assert Eval(si.stepPredicate.right, ctx) && Eval(sj.stepPredicate.right, ctx);
      assert ClassOf(ctx.model, si.ref) == si.messageClass && ClassOf(ctx.model, sj.ref) == sj.messageClass;
      if IsSameOrSubclass(si.messageClass, sj.messageClass) {
        NoOtherStepExcludes(ctx, si.ref, si.messageClass, 0, j);
      } else {
        NoOtherStepExcludes(ctx, sj.ref, sj.messageClass, 0, i);
      }
    }
  }

  /** The steps eligible for a message of class `cls`, in declaration order. */
  function ReactingSteps(ctx: Situation, cls: MessageClass): seq<StepDef> {
    ReactingFrom(ctx, cls, 0)
  }

  function ReactingFrom(ctx: Situation, cls: MessageClass, i: nat): seq<StepDef>
    requires i <= |ctx.model.steps|
    decreases |ctx.model.steps| - i
  {
    if i == |ctx.model.steps| then []
    else
      var t := ctx.model.steps[i];
      (if Eligible(ctx, t, cls) then [t] else []) + ReactingFrom(ctx, cls, i + 1)
  }

  /** The reacting steps are exactly the eligible steps of the model. */
  lemma ReactingStepsAreEligible(ctx: Situation, cls: MessageClass)
    ensures forall t :: t in ReactingSteps(ctx, cls) ==> t in ctx.model.steps && Eligible(ctx, t, cls)
    ensures forall j :: 0 <= j < |ctx.model.steps| && Eligible(ctx, ctx.model.steps[j], cls) ==>
      ctx.model.steps[j] in ReactingSteps(ctx, cls)
  {
    ReactingFromAreEligible(ctx, cls, 0);
  }

  lemma {:induction false} ReactingFromAreEligible(ctx: Situation, cls: MessageClass, i: nat)
    requires i <= |ctx.model.steps|
    ensures forall t :: t in ReactingFrom(ctx, cls, i) ==> t in ctx.model.steps[i..] && Eligible(ctx, t, cls)
    ensures forall j :: i <= j < |ctx.model.steps| && Eligible(ctx, ctx.model.steps[j], cls) ==>
      ctx.model.steps[j] in ReactingFrom(ctx, cls, i)
    decreases |ctx.model.steps| - i
  {
    if i < |ctx.model.steps| {
      ReactingFromAreEligible(ctx, cls, i + 1);
      assert ctx.model.steps[i..] == [ctx.model.steps[i]] + ctx.model.steps[i + 1..];
    }
  }

  /**
   * The indices of the steps that could react to a message of class `cls`, guards aside. Every
   * eligible step is among them, and a guard only ever looks at them.
   */
  function Candidates(ctx: Situation, cls: MessageClass): seq<nat> {
    CandidatesFrom(ctx, cls, 0)
  }

  function CandidatesFrom(ctx: Situation, cls: MessageClass, i: nat): seq<nat>
    requires i <= |ctx.model.steps|
    decreases |ctx.model.steps| - i
  {
    if i == |ctx.model.steps| then []
    else (if CouldReact(ctx, ctx.model.steps[i], cls) then [i] else []) + CandidatesFrom(ctx, cls, i + 1)
  }

  lemma {:induction false} CandidatesFromAreThoseThatCouldReact(ctx: Situation, cls: MessageClass, i: nat, j: nat)
    requires i <= j < |ctx.model.steps|
    ensures j in CandidatesFrom(ctx, cls, i) <==> CouldReact(ctx, ctx.model.steps[j], cls)
    decreases j - i
  {
    if i < j {
      CandidatesFromAreThoseThatCouldReact(ctx, cls, i + 1, j);
    } else if j in CandidatesFrom(ctx, cls, i + 1) {
      CandidatesFromAreAtLeast(ctx, cls, i + 1, j);
    }
  }

  lemma {:induction false} CandidatesFromAreAtLeast(ctx: Situation, cls: MessageClass, i: nat, j: nat)
    requires i <= |ctx.model.steps| && j in CandidatesFrom(ctx, cls, i)
    ensures i <= j < |ctx.model.steps|
    decreases |ctx.model.steps| - i
  {
    if i < |ctx.model.steps| && j != i {
      CandidatesFromAreAtLeast(ctx, cls, i + 1, j);
    }
  }

  /** Every determinism guard occurring in `p` is the guard of step `s` itself. */
  predicate GuardsOnlyFor(p: Predicate, s: StepRef) {
    match p
    case NoOtherStepCouldReactThan(x) => x == s
    case And(l, r) => GuardsOnlyFor(l, s) && GuardsOnlyFor(r, s)
    case _ => true
  }

  /** An eligible step could react: eligibility is the candidates' test plus the guards. */
  lemma EligibleCouldReact(ctx: Situation, t: StepDef, cls: MessageClass)
    requires Eligible(ctx, t, cls)
    ensures CouldReact(ctx, t, cls)
  {
    EvalImpliesGuardsAside(t.stepPredicate, ctx);
  }

  /**
   * When the guard of `s` looks at the steps from index `i` on, with a class below which the
   * message lies, and no step other than the one at index `k` (which is `s`) is a candidate for
   * the message, the guard finds no rival.
   */
  lemma {:induction false} NoRivalFrom(ctx: Situation, cls: MessageClass, k: nat, c: MessageClass, i: nat)
    requires k < |ctx.model.steps| && i <= |ctx.model.steps|
    requires Candidates(ctx, cls) == [k] && IsSameOrSubclass(cls, c)
    ensures NoOtherStepFrom(ctx, ctx.model.steps[k].ref, c, i)
    decreases |ctx.model.steps| - i
  {
    if i < |ctx.model.steps| {
      var t := ctx.model.steps[i];
      if t.ref != ctx.model.steps[k].ref && CouldReact(ctx, t, c) {
        SubclassIsTransitive(cls, c, t.messageClass);
        CandidatesFromAreThoseThatCouldReact(ctx, cls, 0, i);
        assert false;
      }
      NoRivalFrom(ctx, cls, k, c, i + 1);
    }
  }

  /** With the guards of `p` all for `s`, and the guard of `s` holding, the guards change nothing. */
  lemma {:induction false} GuardsAsideSuffice(p: Predicate, ctx: Situation, s: StepRef)
    requires GuardsOnlyFor(p, s) && GuardHolds(ctx, s) && EvalGuardsAside(p, ctx)
    ensures Eval(p, ctx)
  {
    match p
    case And(l, r) =>
      GuardsAsideSuffice(l, ctx, s);
      GuardsAsideSuffice(r, ctx, s);
    case _ =>
  }

  /**
   * A sole candidate reacts: if exactly the step at index `k` could react (guards aside), its
   * guards are only its own and it is the step its reference denotes, the reacting steps are
   * exactly that step.
   */
  lemma SoleCandidateReacts(ctx: Situation, cls: MessageClass, k: nat)
    requires k < |ctx.model.steps| && Candidates(ctx, cls) == [k]
    requires GuardsOnlyFor(ctx.model.steps[k].stepPredicate, ctx.model.steps[k].ref)
    requires Lookup(ctx.model, ctx.model.steps[k].ref) == Some(ctx.model.steps[k])
    ensures ReactingSteps(ctx, cls) == [ctx.model.steps[k]]
  {
    var t := ctx.model.steps[k];
    CandidatesFromAreThoseThatCouldReact(ctx, cls, 0, k);
    NoRivalFrom(ctx, cls, k, t.messageClass, 0);
    GuardsAsideSuffice(t.stepPredicate, ctx, t.ref);
    OnlyEligibleReacts(ctx, cls, k);
  }

  /**
   * The only eligible candidate reacts: if the step at index `k` is eligible and every other
   * candidate is not, the reacting steps are exactly that step.
   */
  lemma OnlyEligibleReacts(ctx: Situation, cls: MessageClass, k: nat)
    requires k < |ctx.model.steps| && Eligible(ctx, ctx.model.steps[k], cls)
    requires forall j :: j in Candidates(ctx, cls) && j != k && j < |ctx.model.steps| ==>
      !Eligible(ctx, ctx.model.steps[j], cls)
    ensures ReactingSteps(ctx, cls) == [ctx.model.steps[k]]
  {
    OnlyEligibleReactsFrom(ctx, cls, k, 0);
  }

  lemma {:induction false} OnlyEligibleReactsFrom(ctx: Situation, cls: MessageClass, k: nat, i: nat)
    requires k < |ctx.model.steps| && i <= |ctx.model.steps| && Eligible(ctx, ctx.model.steps[k], cls)
    requires forall j :: j in Candidates(ctx, cls) && j != k && j < |ctx.model.steps| ==>
      !Eligible(ctx, ctx.model.steps[j], cls)
    ensures ReactingFrom(ctx, cls, i) == if i <= k then [ctx.model.steps[k]] else []
    decreases |ctx.model.steps| - i
  {
    if i < |ctx.model.steps| {
      OnlyEligibleReactsFrom(ctx, cls, k, i + 1);
      if i != k && Eligible(ctx, ctx.model.steps[i], cls) {
        EligibleCouldReact(ctx, ctx.model.steps[i], cls);
        CandidatesFromAreThoseThatCouldReact(ctx, cls, 0, i);
        assert false;
      }
    }
  }

  /**
   * A rival blocks a guarded step: if another step could react to messages of the guarded
   * step's class, the guarded step is not eligible, whatever the message.
   */
  lemma RivalMakesIneligible(ctx: Situation, cls: MessageClass, k: nat, j: nat)
    requires k < |ctx.model.steps| && j < |ctx.model.steps| && Guarded(ctx.model.steps[k])
    requires Lookup(ctx.model, ctx.model.steps[k].ref) == Some(ctx.model.steps[k])
    requires ctx.model.steps[j].ref != ctx.model.steps[k].ref
    requires CouldReact(ctx, ctx.model.steps[j], ctx.model.steps[k].messageClass)
    ensures !Eligible(ctx, ctx.model.steps[k], cls)
  {
    var t := ctx.model.steps[k];
    if Eligible(ctx, t, cls) {
      assert Eval(t.stepPredicate.right, ctx);
      NoOtherStepExcludes(ctx, t.ref, t.messageClass, 0, j);
    }
  }

  /** `p` carries no determinism guard. */
  predicate GuardFree(p: Predicate) {
    match p
    case NoOtherStepCouldReactThan(_) => false
    case And(l, r) => GuardFree(l) && GuardFree(r)
    case _ => true
  }

  /** Without guards, the full predicate is the predicate with the guards left aside. */
  lemma {:induction false} GuardFreeEvalIgnoresGuards(p: Predicate, ctx: Situation)
    requires GuardFree(p)
    ensures Eval(p, ctx) == EvalGuardsAside(p, ctx)
  {
    match p
    case And(l, r) =>
      GuardFreeEvalIgnoresGuards(l, ctx);
      GuardFreeEvalIgnoresGuards(r, ctx);
    case _ =>
  }

  /** A candidate whose predicate carries no guard is eligible. */
  lemma GuardFreeCandidateIsEligible(ctx: Situation, cls: MessageClass, k: nat)
    requires k < |ctx.model.steps| && k in Candidates(ctx, cls) && GuardFree(ctx.model.steps[k].stepPredicate)
    ensures Eligible(ctx, ctx.model.steps[k], cls)
  {
    CandidatesFromAreThoseThatCouldReact(ctx, cls, 0, k);
    GuardFreeEvalIgnoresGuards(ctx.model.steps[k].stepPredicate, ctx);
  }

  /** Without candidates nothing reacts. */
  lemma NoCandidateNoReaction(ctx: Situation, cls: MessageClass)
    requires Candidates(ctx, cls) == []
    ensures ReactingSteps(ctx, cls) == []
  {
    NothingReactsFrom(ctx, cls, 0);
  }

  lemma {:induction false} NothingReactsFrom(ctx: Situation, cls: MessageClass, i: nat)
    requires i <= |ctx.model.steps| && Candidates(ctx, cls) == []
    ensures ReactingFrom(ctx, cls, i) == []
    decreases |ctx.model.steps| - i
  {
    if i < |ctx.model.steps| {
      NothingReactsFrom(ctx, cls, i + 1);
      if Eligible(ctx, ctx.model.steps[i], cls) {
        EligibleCouldReact(ctx, ctx.model.steps[i], cls);
        CandidatesFromAreThoseThatCouldReact(ctx, cls, 0, i);
        assert false;
      }
    }
  }
}
