/**
 * The HelloWorld05 example as a concrete model: a basic flow S1..S6 asking for name and age and
 * greeting the user, an alternative flow for an out-of-bounds age and one for a non-numerical
 * age, both replacing S5 and continuing at S3. The runs below are the three runs of the example's
 * tests, with integer parsing left as a parameter.
 */
module HelloWorld05 {
  import opened Wrappers
  import opened Messages
  import opened ModelGraph
  import opened FlowPositions
  import opened StepPredicates
  import opened Runner
  import opened Greeting

  /** The steps' identities, in declaration order. */
  const S1 := StepRef(0)
  const S3 := StepRef(2)

  /**
   * The model. Steps are numbered in declaration order, S1 = 0 to S5b_2 = 9. S3 carries "or
   * after S5a_2" and "or after S5b_2" in its position: that is where the two alternative flows
   * continue. The first steps of the alternative flows have explicit predicates, "instead of S5"
   * (and the out-of-bounds condition), without a guard.
   */
  const Step1 := SystemStep(StepRef(0), "S1", None, Some("asksForName"))
  const Step2 := UserStep(StepRef(1), "S2", StepRef(0), "savesName")
  const Step3 := StepDef(StepRef(2), "Get greeted", "S3", Some(StepRef(1)), [Actor(1)], RunnerClass,
    And(AtPosition(FlowPosition(After(Some(StepRef(1))), [StepRef(7), StepRef(9)])), NoOtherStepCouldReactThan(StepRef(2))),
    Some("asksForAge"))
  const Step4 := UserStep(StepRef(3), "S4", StepRef(2), "savesAge")
  const Step5 := SystemStep(StepRef(4), "S5", Some(StepRef(3)), Some("greetsUser"))
  const Step6 := SystemStep(StepRef(5), "S6", Some(StepRef(4)), Some("stops"))
  const Step5a1 := StepDef(StepRef(6), "Get greeted", "S5a_1", None, [Actor(1)], RunnerClass,
    And(AtPosition(FlowPosition(InsteadOf(StepRef(4)), [])), Condition("ageIsOutOfBounds")),
    Some("displaysAgeIsOutOfBounds"))
  const Step5a2 := SystemStep(StepRef(7), "S5a_2", Some(StepRef(6)), None)
  const Step5b1 := StepDef(StepRef(8), "Get greeted", "S5b_1", None, [Actor(1)], NumberFormatException,
    AtPosition(FlowPosition(InsteadOf(StepRef(4)), [])),
    Some("displaysAgeIsNonNumerical"))
  const Step5b2 := SystemStep(StepRef(9), "S5b_2", Some(StepRef(8)), None)

  const Model05 := Model([Step1, Step2, Step3, Step4, Step5, Step6, Step5a1, Step5a2, Step5b1, Step5b2], Actor(0), Actor(1))

  /** Each step's reference is its index, so references are unique and lookups find the step. */
  lemma StepsAreNumbered05()
    ensures forall i :: 0 <= i < |Model05.steps| ==> Model05.steps[i].ref == StepRef(i)
    ensures UniqueRefs(Model05)
  {
    forall i | 0 <= i < |Model05.steps|
      ensures Model05.steps[i].ref == StepRef(i)
    {
      assert i == 0 || i == 1 || i == 2 || i == 3 || i == 4 || i == 5 || i == 6 || i == 7 || i == 8 || i == 9;
    }
  }

  lemma Lookup05(k: nat)
    requires k < |Model05.steps|
    ensures Lookup(Model05, Model05.steps[k].ref) == Some(Model05.steps[k])
  {
    StepsAreNumbered05();
    LookupFindsStep(Model05, k);
  }

  /** The only condition of the model, on S5a_1, is the out-of-bounds age. */
  lemma Holding05(parse: string -> Option<int>, d: Greeter)
    ensures "ageIsOutOfBounds" in Holding(Model05, GreeterBehavior(parse).test, d) <==> AgeIsOutOfBounds(d)
  {
    assert Model05.steps[6].stepPredicate
      == And(AtPosition(FlowPosition(InsteadOf(StepRef(4)), [])), Condition("ageIsOutOfBounds"));
    NamedConditionHolds(Model05, GreeterBehavior(parse).test, d, 6, "ageIsOutOfBounds");
  }

  /** S1 could react exactly to messages of its class, at its position. */
  lemma CouldReact05S1(ctx: Situation, cls: MessageClass)
    requires ctx.model == Model05
    ensures CouldReact(ctx, Model05.steps[0], cls) <==> IsSameOrSubclass(cls, MessageClass(["ModelRunner"])) && ctx.latest == None
  {
    var t := Model05.steps[0];
    assert t.actors == [Actor(1)] && t.messageClass == MessageClass(["ModelRunner"]);
    assert t.stepPredicate == And(AtPosition(FlowPosition(After(None), [])), NoOtherStepCouldReactThan(StepRef(0)));
    assert ActorMatches(ctx, t);
    assert EvalGuardsAside(t.stepPredicate, ctx) <==> ctx.latest == None;
  }

  /** S2 could react exactly to messages of its class, at its position. */
  lemma CouldReact05S2(ctx: Situation, cls: MessageClass)
    requires ctx.model == Model05
    ensures CouldReact(ctx, Model05.steps[1], cls) <==> ctx.actor == Actor(0) && IsSameOrSubclass(cls, MessageClass(["EnterText"])) && ctx.latest == Some(StepRef(0))
  {
    var t := Model05.steps[1];
    assert t.actors == [Actor(0)] && t.messageClass == MessageClass(["EnterText"]);
    assert t.stepPredicate == And(AtPosition(FlowPosition(After(Some(StepRef(0))), [])), NoOtherStepCouldReactThan(StepRef(1)));
    assert ActorMatches(ctx, t) <==> ctx.actor == Actor(0);
    assert EvalGuardsAside(t.stepPredicate, ctx) <==> ctx.latest == Some(StepRef(0));
  }

  /** S3 could react exactly to messages of its class, at its position. */
  lemma CouldReact05S3(ctx: Situation, cls: MessageClass)
    requires ctx.model == Model05
    ensures CouldReact(ctx, Model05.steps[2], cls) <==> IsSameOrSubclass(cls, MessageClass(["ModelRunner"])) && (ctx.latest == Some(StepRef(1)) || ctx.latest == Some(StepRef(7)) || ctx.latest == Some(StepRef(9)))
  {
    var t := Model05.steps[2];
    assert t.actors == [Actor(1)] && t.messageClass == MessageClass(["ModelRunner"]);
    assert t.stepPredicate == And(AtPosition(FlowPosition(After(Some(StepRef(1))), [StepRef(7), StepRef(9)])), NoOtherStepCouldReactThan(StepRef(2)));
    assert ActorMatches(ctx, t);
    assert EvalGuardsAside(t.stepPredicate, ctx) <==> (ctx.latest == Some(StepRef(1)) || ctx.latest == Some(StepRef(7)) || ctx.latest == Some(StepRef(9)));
  }

  /** S4 could react exactly to messages of its class, at its position. */
  lemma CouldReact05S4(ctx: Situation, cls: MessageClass)
    requires ctx.model == Model05
    ensures CouldReact(ctx, Model05.steps[3], cls) <==> ctx.actor == Actor(0) && IsSameOrSubclass(cls, MessageClass(["EnterText"])) && ctx.latest == Some(StepRef(2))
  {
    var t := Model05.steps[3];
    assert t.actors == [Actor(0)] && t.messageClass == MessageClass(["EnterText"]);
    assert t.stepPredicate == And(AtPosition(FlowPosition(After(Some(StepRef(2))), [])), NoOtherStepCouldReactThan(StepRef(3)));
    assert ActorMatches(ctx, t) <==> ctx.actor == Actor(0);
    assert EvalGuardsAside(t.stepPredicate, ctx) <==> ctx.latest == Some(StepRef(2));
  }

  /** S5 could react exactly to messages of its class, at its position. */
  lemma CouldReact05S5(ctx: Situation, cls: MessageClass)
    requires ctx.model == Model05
    ensures CouldReact(ctx, Model05.steps[4], cls) <==> IsSameOrSubclass(cls, MessageClass(["ModelRunner"])) && ctx.latest == Some(StepRef(3))
  {
    var t := Model05.steps[4];
    assert t.actors == [Actor(1)] && t.messageClass == MessageClass(["ModelRunner"]);
    assert t.stepPredicate == And(AtPosition(FlowPosition(After(Some(StepRef(3))), [])), NoOtherStepCouldReactThan(StepRef(4)));
    assert ActorMatches(ctx, t);
    assert EvalGuardsAside(t.stepPredicate, ctx) <==> ctx.latest == Some(StepRef(3));
  }

  /** S6 could react exactly to messages of its class, at its position. */
  lemma CouldReact05S6(ctx: Situation, cls: MessageClass)
    requires ctx.model == Model05
    ensures CouldReact(ctx, Model05.steps[5], cls) <==> IsSameOrSubclass(cls, MessageClass(["ModelRunner"])) && ctx.latest == Some(StepRef(4))
  {
    var t := Model05.steps[5];
    assert t.actors == [Actor(1)] && t.messageClass == MessageClass(["ModelRunner"]);
    assert t.stepPredicate == And(AtPosition(FlowPosition(After(Some(StepRef(4))), [])), NoOtherStepCouldReactThan(StepRef(5)));
    assert ActorMatches(ctx, t);
    assert EvalGuardsAside(t.stepPredicate, ctx) <==> ctx.latest == Some(StepRef(4));
  }

  /** S5a_1 could react exactly to messages of its class, at its position when its condition holds. */
  lemma CouldReact05S5a_1(ctx: Situation, cls: MessageClass)
    requires ctx.model == Model05
    ensures CouldReact(ctx, Model05.steps[6], cls) <==> IsSameOrSubclass(cls, MessageClass(["ModelRunner"])) && ctx.latest == Some(StepRef(3)) && "ageIsOutOfBounds" in ctx.holding
  {
    var t := Model05.steps[6];
    assert t.actors == [Actor(1)] && t.messageClass == MessageClass(["ModelRunner"]);
    assert t.stepPredicate == And(AtPosition(FlowPosition(InsteadOf(StepRef(4)), [])), Condition("ageIsOutOfBounds"));
    Lookup05(4);
    assert PositionHolds(Model05, FlowPosition(InsteadOf(StepRef(4)), []), ctx.latest) <==> ctx.latest == Some(StepRef(3));
    assert ActorMatches(ctx, t);
    assert EvalGuardsAside(t.stepPredicate, ctx) <==> ctx.latest == Some(StepRef(3)) && "ageIsOutOfBounds" in ctx.holding;
  }

  /** S5a_2 could react exactly to messages of its class, at its position. */
  lemma CouldReact05S5a_2(ctx: Situation, cls: MessageClass)
    requires ctx.model == Model05
    ensures CouldReact(ctx, Model05.steps[7], cls) <==> IsSameOrSubclass(cls, MessageClass(["ModelRunner"])) && ctx.latest == Some(StepRef(6))
  {
    var t := Model05.steps[7];
    assert t.actors == [Actor(1)] && t.messageClass == MessageClass(["ModelRunner"]);
    assert t.stepPredicate == And(AtPosition(FlowPosition(After(Some(StepRef(6))), [])), NoOtherStepCouldReactThan(StepRef(7)));
    assert ActorMatches(ctx, t);
    assert EvalGuardsAside(t.stepPredicate, ctx) <==> ctx.latest == Some(StepRef(6));
  }

  /** S5b_1 could react exactly to messages of its class, at its position. */
  lemma CouldReact05S5b_1(ctx: Situation, cls: MessageClass)
    requires ctx.model == Model05
    ensures CouldReact(ctx, Model05.steps[8], cls) <==> IsSameOrSubclass(cls, MessageClass(["Throwable", "Exception", "RuntimeException", "IllegalArgumentException", "NumberFormatException"])) && ctx.latest == Some(StepRef(3))
  {
    var t := Model05.steps[8];
    assert t.actors == [Actor(1)] && t.messageClass == MessageClass(["Throwable", "Exception", "RuntimeException", "IllegalArgumentException", "NumberFormatException"]);
    assert t.stepPredicate == AtPosition(FlowPosition(InsteadOf(StepRef(4)), []));
    Lookup05(4);
    assert PositionHolds(Model05, FlowPosition(InsteadOf(StepRef(4)), []), ctx.latest) <==> ctx.latest == Some(StepRef(3));
    assert ActorMatches(ctx, t);
    assert EvalGuardsAside(t.stepPredicate, ctx) <==> ctx.latest == Some(StepRef(3));
  }

  /** S5b_2 could react exactly to messages of its class, at its position. */
  lemma CouldReact05S5b_2(ctx: Situation, cls: MessageClass)
    requires ctx.model == Model05
    ensures CouldReact(ctx, Model05.steps[9], cls) <==> IsSameOrSubclass(cls, MessageClass(["ModelRunner"])) && ctx.latest == Some(StepRef(8))
  {
    var t := Model05.steps[9];
    assert t.actors == [Actor(1)] && t.messageClass == MessageClass(["ModelRunner"]);
    assert t.stepPredicate == And(AtPosition(FlowPosition(After(Some(StepRef(8))), [])), NoOtherStepCouldReactThan(StepRef(9)));
    assert ActorMatches(ctx, t);
    assert EvalGuardsAside(t.stepPredicate, ctx) <==> ctx.latest == Some(StepRef(8));
  }

  /** At start only S1 could react. */
  lemma CandidatesAtStart(ctx: Situation)
    requires ctx.model == Model05 && ctx.latest == None && ctx.actor == Actor(1)
    ensures Candidates(ctx, MessageClass(["ModelRunner"])) == [0]
  {
    CouldReact05S5b_2(ctx, MessageClass(["ModelRunner"]));
    assert CandidatesFrom(ctx, MessageClass(["ModelRunner"]), 9) == [];
    CouldReact05S5b_1(ctx, MessageClass(["ModelRunner"]));
    assert CandidatesFrom(ctx, MessageClass(["ModelRunner"]), 8) == [];
    CouldReact05S5a_2(ctx, MessageClass(["ModelRunner"]));
    assert CandidatesFrom(ctx, MessageClass(["ModelRunner"]), 7) == [];
    CouldReact05S5a_1(ctx, MessageClass(["ModelRunner"]));
    assert CandidatesFrom(ctx, MessageClass(["ModelRunner"]), 6) == [];
    CouldReact05S6(ctx, MessageClass(["ModelRunner"]));
    assert CandidatesFrom(ctx, MessageClass(["ModelRunner"]), 5) == [];
    CouldReact05S5(ctx, MessageClass(["ModelRunner"]));
    assert CandidatesFrom(ctx, MessageClass(["ModelRunner"]), 4) == [];
    CouldReact05S4(ctx, MessageClass(["ModelRunner"]));
    assert CandidatesFrom(ctx, MessageClass(["ModelRunner"]), 3) == [];
    CouldReact05S3(ctx, MessageClass(["ModelRunner"]));
    assert CandidatesFrom(ctx, MessageClass(["ModelRunner"]), 2) == [];
    CouldReact05S2(ctx, MessageClass(["ModelRunner"]));
    assert CandidatesFrom(ctx, MessageClass(["ModelRunner"]), 1) == [];
    CouldReact05S1(ctx, MessageClass(["ModelRunner"]));
    assert CandidatesFrom(ctx, MessageClass(["ModelRunner"]), 0) == [0];
  }

  /** After S1 no step could react on its own. */
  lemma CandidatesAfterS1(ctx: Situation)
    requires ctx.model == Model05 && ctx.latest == Some(StepRef(0)) && ctx.actor == Actor(1)
    ensures Candidates(ctx, MessageClass(["ModelRunner"])) == []
  {
    CouldReact05S5b_2(ctx, MessageClass(["ModelRunner"]));
    assert CandidatesFrom(ctx, MessageClass(["ModelRunner"]), 9) == [];
    CouldReact05S5b_1(ctx, MessageClass(["ModelRunner"]));
    assert CandidatesFrom(ctx, MessageClass(["ModelRunner"]), 8) == [];
    CouldReact05S5a_2(ctx, MessageClass(["ModelRunner"]));
    assert CandidatesFrom(ctx, MessageClass(["ModelRunner"]), 7) == [];
    CouldReact05S5a_1(ctx, MessageClass(["ModelRunner"]));
    assert CandidatesFrom(ctx, MessageClass(["ModelRunner"]), 6) == [];
    CouldReact05S6(ctx, MessageClass(["ModelRunner"]));
    assert CandidatesFrom(ctx, MessageClass(["ModelRunner"]), 5) == [];
    CouldReact05S5(ctx, MessageClass(["ModelRunner"]));
    assert CandidatesFrom(ctx, MessageClass(["ModelRunner"]), 4) == [];
    CouldReact05S4(ctx, MessageClass(["ModelRunner"]));
    assert CandidatesFrom(ctx, MessageClass(["ModelRunner"]), 3) == [];
    CouldReact05S3(ctx, MessageClass(["ModelRunner"]));
    assert CandidatesFrom(ctx, MessageClass(["ModelRunner"]), 2) == [];
    CouldReact05S2(ctx, MessageClass(["ModelRunner"]));
    assert CandidatesFrom(ctx, MessageClass(["ModelRunner"]), 1) == [];
    CouldReact05S1(ctx, MessageClass(["ModelRunner"]));
    assert CandidatesFrom(ctx, MessageClass(["ModelRunner"]), 0) == [];
  }

  /** After S1 only S2 could react to the user's text. */
  lemma CandidatesNameAfterS1(ctx: Situation)
    requires ctx.model == Model05 && ctx.latest == Some(StepRef(0)) && ctx.actor == Actor(0)
    ensures Candidates(ctx, MessageClass(["EnterText"])) == [1]
  {
    CouldReact05S5b_2(ctx, MessageClass(["EnterText"]));
    assert CandidatesFrom(ctx, MessageClass(["EnterText"]), 9) == [];
    CouldReact05S5b_1(ctx, MessageClass(["EnterText"]));
    assert CandidatesFrom(ctx, MessageClass(["EnterText"]), 8) == [];
    CouldReact05S5a_2(ctx, MessageClass(["EnterText"]));
    assert CandidatesFrom(ctx, MessageClass(["EnterText"]), 7) == [];
    CouldReact05S5a_1(ctx, MessageClass(["EnterText"]));
    assert CandidatesFrom(ctx, MessageClass(["EnterText"]), 6) == [];
    CouldReact05S6(ctx, MessageClass(["EnterText"]));
    assert CandidatesFrom(ctx, MessageClass(["EnterText"]), 5) == [];
    CouldReact05S5(ctx, MessageClass(["EnterText"]));
    assert CandidatesFrom(ctx, MessageClass(["EnterText"]), 4) == [];
    CouldReact05S4(ctx, MessageClass(["EnterText"]));
    assert CandidatesFrom(ctx, MessageClass(["EnterText"]), 3) == [];
    CouldReact05S3(ctx, MessageClass(["EnterText"]));
    assert CandidatesFrom(ctx, MessageClass(["EnterText"]), 2) == [];
    CouldReact05S2(ctx, MessageClass(["EnterText"]));
    assert CandidatesFrom(ctx, MessageClass(["EnterText"]), 1) == [1];
    CouldReact05S1(ctx, MessageClass(["EnterText"]));
    assert CandidatesFrom(ctx, MessageClass(["EnterText"]), 0) == [1];
  }

  /** After S2 only S3 could react. */
  lemma CandidatesAfterS2(ctx: Situation)
    requires ctx.model == Model05 && ctx.latest == Some(StepRef(1)) && ctx.actor == Actor(1)
    ensures Candidates(ctx, MessageClass(["ModelRunner"])) == [2]
  {
    CouldReact05S5b_2(ctx, MessageClass(["ModelRunner"]));
    assert CandidatesFrom(ctx, MessageClass(["ModelRunner"]), 9) == [];
    CouldReact05S5b_1(ctx, MessageClass(["ModelRunner"]));
    assert CandidatesFrom(ctx, MessageClass(["ModelRunner"]), 8) == [];
    CouldReact05S5a_2(ctx, MessageClass(["ModelRunner"]));
    assert CandidatesFrom(ctx, MessageClass(["ModelRunner"]), 7) == [];
    CouldReact05S5a_1(ctx, MessageClass(["ModelRunner"]));
    assert CandidatesFrom(ctx, MessageClass(["ModelRunner"]), 6) == [];
    CouldReact05S6(ctx, MessageClass(["ModelRunner"]));
    assert CandidatesFrom(ctx, MessageClass(["ModelRunner"]), 5) == [];
    CouldReact05S5(ctx, MessageClass(["ModelRunner"]));
    assert CandidatesFrom(ctx, MessageClass(["ModelRunner"]), 4) == [];
    CouldReact05S4(ctx, MessageClass(["ModelRunner"]));
    assert CandidatesFrom(ctx, MessageClass(["ModelRunner"]), 3) == [];
    CouldReact05S3(ctx, MessageClass(["ModelRunner"]));
    assert CandidatesFrom(ctx, MessageClass(["ModelRunner"]), 2) == [2];
    CouldReact05S2(ctx, MessageClass(["ModelRunner"]));
    assert CandidatesFrom(ctx, MessageClass(["ModelRunner"]), 1) == [2];
    CouldReact05S1(ctx, MessageClass(["ModelRunner"]));
    assert CandidatesFrom(ctx, MessageClass(["ModelRunner"]), 0) == [2];
  }

  /** After S3 no step could react on its own. */
  lemma CandidatesAfterS3(ctx: Situation)
    requires ctx.model == Model05 && ctx.latest == Some(StepRef(2)) && ctx.actor == Actor(1)
    ensures Candidates(ctx, MessageClass(["ModelRunner"])) == []
  {
    CouldReact05S5b_2(ctx, MessageClass(["ModelRunner"]));
    assert CandidatesFrom(ctx, MessageClass(["ModelRunner"]), 9) == [];
    CouldReact05S5b_1(ctx, MessageClass(["ModelRunner"]));
    assert CandidatesFrom(ctx, MessageClass(["ModelRunner"]), 8) == [];
    CouldReact05S5a_2(ctx, MessageClass(["ModelRunner"]));
    assert CandidatesFrom(ctx, MessageClass(["ModelRunner"]), 7) == [];
    CouldReact05S5a_1(ctx, MessageClass(["ModelRunner"]));
    assert CandidatesFrom(ctx, MessageClass(["ModelRunner"]), 6) == [];
    CouldReact05S6(ctx, MessageClass(["ModelRunner"]));
    assert CandidatesFrom(ctx, MessageClass(["ModelRunner"]), 5) == [];
    CouldReact05S5(ctx, MessageClass(["ModelRunner"]));
    assert CandidatesFrom(ctx, MessageClass(["ModelRunner"]), 4) == [];
    CouldReact05S4(ctx, MessageClass(["ModelRunner"]));
    assert CandidatesFrom(ctx, MessageClass(["ModelRunner"]), 3) == [];
    CouldReact05S3(ctx, MessageClass(["ModelRunner"]));
    assert CandidatesFrom(ctx, MessageClass(["ModelRunner"]), 2) == [];
    CouldReact05S2(ctx, MessageClass(["ModelRunner"]));
    assert CandidatesFrom(ctx, MessageClass(["ModelRunner"]), 1) == [];
    CouldReact05S1(ctx, MessageClass(["ModelRunner"]));
    assert CandidatesFrom(ctx, MessageClass(["ModelRunner"]), 0) == [];
  }

  /** After S3 only S4 could react to the user's text. */
  lemma CandidatesAgeAfterS3(ctx: Situation)
    requires ctx.model == Model05 && ctx.latest == Some(StepRef(2)) && ctx.actor == Actor(0)
    ensures Candidates(ctx, MessageClass(["EnterText"])) == [3]
  {
    CouldReact05S5b_2(ctx, MessageClass(["EnterText"]));
    assert CandidatesFrom(ctx, MessageClass(["EnterText"]), 9) == [];
    CouldReact05S5b_1(ctx, MessageClass(["EnterText"]));
    assert CandidatesFrom(ctx, MessageClass(["EnterText"]), 8) == [];
    CouldReact05S5a_2(ctx, MessageClass(["EnterText"]));
    assert CandidatesFrom(ctx, MessageClass(["EnterText"]), 7) == [];
    CouldReact05S5a_1(ctx, MessageClass(["EnterText"]));
    assert CandidatesFrom(ctx, MessageClass(["EnterText"]), 6) == [];
    CouldReact05S6(ctx, MessageClass(["EnterText"]));
    assert CandidatesFrom(ctx, MessageClass(["EnterText"]), 5) == [];
    CouldReact05S5(ctx, MessageClass(["EnterText"]));
    assert CandidatesFrom(ctx, MessageClass(["EnterText"]), 4) == [];
    CouldReact05S4(ctx, MessageClass(["EnterText"]));
    assert CandidatesFrom(ctx, MessageClass(["EnterText"]), 3) == [3];
    CouldReact05S3(ctx, MessageClass(["EnterText"]));
    assert CandidatesFrom(ctx, MessageClass(["EnterText"]), 2) == [3];
    CouldReact05S2(ctx, MessageClass(["EnterText"]));
    assert CandidatesFrom(ctx, MessageClass(["EnterText"]), 1) == [3];
    CouldReact05S1(ctx, MessageClass(["EnterText"]));
    assert CandidatesFrom(ctx, MessageClass(["EnterText"]), 0) == [3];
  }

  /** After S4, with the age in bounds, only S5 could react. */
  lemma CandidatesAfterS4InBounds(ctx: Situation)
    requires ctx.model == Model05 && ctx.latest == Some(StepRef(3)) && ctx.actor == Actor(1) && !("ageIsOutOfBounds" in ctx.holding)
    ensures Candidates(ctx, MessageClass(["ModelRunner"])) == [4]
  {
    CouldReact05S5b_2(ctx, MessageClass(["ModelRunner"]));
    assert CandidatesFrom(ctx, MessageClass(["ModelRunner"]), 9) == [];
    CouldReact05S5b_1(ctx, MessageClass(["ModelRunner"]));
    assert CandidatesFrom(ctx, MessageClass(["ModelRunner"]), 8) == [];
    CouldReact05S5a_2(ctx, MessageClass(["ModelRunner"]));
    assert CandidatesFrom(ctx, MessageClass(["ModelRunner"]), 7) == [];
    CouldReact05S5a_1(ctx, MessageClass(["ModelRunner"]));
    assert CandidatesFrom(ctx, MessageClass(["ModelRunner"]), 6) == [];
    CouldReact05S6(ctx, MessageClass(["ModelRunner"]));
    assert CandidatesFrom(ctx, MessageClass(["ModelRunner"]), 5) == [];
    CouldReact05S5(ctx, MessageClass(["ModelRunner"]));
    assert CandidatesFrom(ctx, MessageClass(["ModelRunner"]), 4) == [4];
    CouldReact05S4(ctx, MessageClass(["ModelRunner"]));
    assert CandidatesFrom(ctx, MessageClass(["ModelRunner"]), 3) == [4];
    CouldReact05S3(ctx, MessageClass(["ModelRunner"]));
    assert CandidatesFrom(ctx, MessageClass(["ModelRunner"]), 2) == [4];
    CouldReact05S2(ctx, MessageClass(["ModelRunner"]));
    assert CandidatesFrom(ctx, MessageClass(["ModelRunner"]), 1) == [4];
    CouldReact05S1(ctx, MessageClass(["ModelRunner"]));
    assert CandidatesFrom(ctx, MessageClass(["ModelRunner"]), 0) == [4];
  }

  /** After S5 only S6 could react. */
  lemma CandidatesAfterS5(ctx: Situation)
    requires ctx.model == Model05 && ctx.latest == Some(StepRef(4)) && ctx.actor == Actor(1)
    ensures Candidates(ctx, MessageClass(["ModelRunner"])) == [5]
  {
    CouldReact05S5b_2(ctx, MessageClass(["ModelRunner"]));
    assert CandidatesFrom(ctx, MessageClass(["ModelRunner"]), 9) == [];
    CouldReact05S5b_1(ctx, MessageClass(["ModelRunner"]));
    assert CandidatesFrom(ctx, MessageClass(["ModelRunner"]), 8) == [];
    CouldReact05S5a_2(ctx, MessageClass(["ModelRunner"]));
    assert CandidatesFrom(ctx, MessageClass(["ModelRunner"]), 7) == [];
    CouldReact05S5a_1(ctx, MessageClass(["ModelRunner"]));
    assert CandidatesFrom(ctx, MessageClass(["ModelRunner"]), 6) == [];
    CouldReact05S6(ctx, MessageClass(["ModelRunner"]));
    assert CandidatesFrom(ctx, MessageClass(["ModelRunner"]), 5) == [5];
    CouldReact05S5(ctx, MessageClass(["ModelRunner"]));
    assert CandidatesFrom(ctx, MessageClass(["ModelRunner"]), 4) == [5];
    CouldReact05S4(ctx, MessageClass(["ModelRunner"]));
    assert CandidatesFrom(ctx, MessageClass(["ModelRunner"]), 3) == [5];
    CouldReact05S3(ctx, MessageClass(["ModelRunner"]));
    assert CandidatesFrom(ctx, MessageClass(["ModelRunner"]), 2) == [5];
    CouldReact05S2(ctx, MessageClass(["ModelRunner"]));
    assert CandidatesFrom(ctx, MessageClass(["ModelRunner"]), 1) == [5];
    CouldReact05S1(ctx, MessageClass(["ModelRunner"]));
    assert CandidatesFrom(ctx, MessageClass(["ModelRunner"]), 0) == [5];
  }

  /** After S6 no step could react. */
  lemma CandidatesAfterS6(ctx: Situation)
    requires ctx.model == Model05 && ctx.latest == Some(StepRef(5)) && ctx.actor == Actor(1)
    ensures Candidates(ctx, MessageClass(["ModelRunner"])) == []
  {
    CouldReact05S5b_2(ctx, MessageClass(["ModelRunner"]));
    assert CandidatesFrom(ctx, MessageClass(["ModelRunner"]), 9) == [];
    CouldReact05S5b_1(ctx, MessageClass(["ModelRunner"]));
    assert CandidatesFrom(ctx, MessageClass(["ModelRunner"]), 8) == [];
    CouldReact05S5a_2(ctx, MessageClass(["ModelRunner"]));
    assert CandidatesFrom(ctx, MessageClass(["ModelRunner"]), 7) == [];
    CouldReact05S5a_1(ctx, MessageClass(["ModelRunner"]));
    assert CandidatesFrom(ctx, MessageClass(["ModelRunner"]), 6) == [];
    CouldReact05S6(ctx, MessageClass(["ModelRunner"]));
    assert CandidatesFrom(ctx, MessageClass(["ModelRunner"]), 5) == [];
    CouldReact05S5(ctx, MessageClass(["ModelRunner"]));
    assert CandidatesFrom(ctx, MessageClass(["ModelRunner"]), 4) == [];
    CouldReact05S4(ctx, MessageClass(["ModelRunner"]));
    assert CandidatesFrom(ctx, MessageClass(["ModelRunner"]), 3) == [];
    CouldReact05S3(ctx, MessageClass(["ModelRunner"]));
    assert CandidatesFrom(ctx, MessageClass(["ModelRunner"]), 2) == [];
    CouldReact05S2(ctx, MessageClass(["ModelRunner"]));
    assert CandidatesFrom(ctx, MessageClass(["ModelRunner"]), 1) == [];
    CouldReact05S1(ctx, MessageClass(["ModelRunner"]));
    assert CandidatesFrom(ctx, MessageClass(["ModelRunner"]), 0) == [];
  }

  /** After S4, with the age out of bounds, S5 and S5a_1 could react. */
  lemma CandidatesAfterS4OutOfBounds(ctx: Situation)
    requires ctx.model == Model05 && ctx.latest == Some(StepRef(3)) && ctx.actor == Actor(1) && "ageIsOutOfBounds" in ctx.holding
    ensures Candidates(ctx, MessageClass(["ModelRunner"])) == [4, 6]
  {
    CouldReact05S5b_2(ctx, MessageClass(["ModelRunner"]));
    assert CandidatesFrom(ctx, MessageClass(["ModelRunner"]), 9) == [];
    CouldReact05S5b_1(ctx, MessageClass(["ModelRunner"]));
    assert CandidatesFrom(ctx, MessageClass(["ModelRunner"]), 8) == [];
    CouldReact05S5a_2(ctx, MessageClass(["ModelRunner"]));
    assert CandidatesFrom(ctx, MessageClass(["ModelRunner"]), 7) == [];
    CouldReact05S5a_1(ctx, MessageClass(["ModelRunner"]));
    assert CandidatesFrom(ctx, MessageClass(["ModelRunner"]), 6) == [6];
    CouldReact05S6(ctx, MessageClass(["ModelRunner"]));
    assert CandidatesFrom(ctx, MessageClass(["ModelRunner"]), 5) == [6];
    CouldReact05S5(ctx, MessageClass(["ModelRunner"]));
    assert CandidatesFrom(ctx, MessageClass(["ModelRunner"]), 4) == [4, 6];
    CouldReact05S4(ctx, MessageClass(["ModelRunner"]));
    assert CandidatesFrom(ctx, MessageClass(["ModelRunner"]), 3) == [4, 6];
    CouldReact05S3(ctx, MessageClass(["ModelRunner"]));
    assert CandidatesFrom(ctx, MessageClass(["ModelRunner"]), 2) == [4, 6];
    CouldReact05S2(ctx, MessageClass(["ModelRunner"]));
    assert CandidatesFrom(ctx, MessageClass(["ModelRunner"]), 1) == [4, 6];
    CouldReact05S1(ctx, MessageClass(["ModelRunner"]));
    assert CandidatesFrom(ctx, MessageClass(["ModelRunner"]), 0) == [4, 6];
  }

  /** After S5a_1 only S5a_2 could react. */
  lemma CandidatesAfterS5a1(ctx: Situation)
    requires ctx.model == Model05 && ctx.latest == Some(StepRef(6)) && ctx.actor == Actor(1)
    ensures Candidates(ctx, MessageClass(["ModelRunner"])) == [7]
  {
    CouldReact05S5b_2(ctx, MessageClass(["ModelRunner"]));
    assert CandidatesFrom(ctx, MessageClass(["ModelRunner"]), 9) == [];
    CouldReact05S5b_1(ctx, MessageClass(["ModelRunner"]));
    assert CandidatesFrom(ctx, MessageClass(["ModelRunner"]), 8) == [];
    CouldReact05S5a_2(ctx, MessageClass(["ModelRunner"]));
    assert CandidatesFrom(ctx, MessageClass(["ModelRunner"]), 7) == [7];
    CouldReact05S5a_1(ctx, MessageClass(["ModelRunner"]));
    assert CandidatesFrom(ctx, MessageClass(["ModelRunner"]), 6) == [7];
    CouldReact05S6(ctx, MessageClass(["ModelRunner"]));
    assert CandidatesFrom(ctx, MessageClass(["ModelRunner"]), 5) == [7];
    CouldReact05S5(ctx, MessageClass(["ModelRunner"]));
    assert CandidatesFrom(ctx, MessageClass(["ModelRunner"]), 4) == [7];
    CouldReact05S4(ctx, MessageClass(["ModelRunner"]));
    assert CandidatesFrom(ctx, MessageClass(["ModelRunner"]), 3) == [7];
    CouldReact05S3(ctx, MessageClass(["ModelRunner"]));
    assert CandidatesFrom(ctx, MessageClass(["ModelRunner"]), 2) == [7];
    CouldReact05S2(ctx, MessageClass(["ModelRunner"]));
    assert CandidatesFrom(ctx, MessageClass(["ModelRunner"]), 1) == [7];
    CouldReact05S1(ctx, MessageClass(["ModelRunner"]));
    assert CandidatesFrom(ctx, MessageClass(["ModelRunner"]), 0) == [7];
  }

  /** After S5a_2 only S3 could react. */
  lemma CandidatesAfterS5a2(ctx: Situation)
    requires ctx.model == Model05 && ctx.latest == Some(StepRef(7)) && ctx.actor == Actor(1)
    ensures Candidates(ctx, MessageClass(["ModelRunner"])) == [2]
  {
    CouldReact05S5b_2(ctx, MessageClass(["ModelRunner"]));
    assert CandidatesFrom(ctx, MessageClass(["ModelRunner"]), 9) == [];
    CouldReact05S5b_1(ctx, MessageClass(["ModelRunner"]));
    assert CandidatesFrom(ctx, MessageClass(["ModelRunner"]), 8) == [];
    CouldReact05S5a_2(ctx, MessageClass(["ModelRunner"]));
    assert CandidatesFrom(ctx, MessageClass(["ModelRunner"]), 7) == [];
    CouldReact05S5a_1(ctx, MessageClass(["ModelRunner"]));
    assert CandidatesFrom(ctx, MessageClass(["ModelRunner"]), 6) == [];
    CouldReact05S6(ctx, MessageClass(["ModelRunner"]));
    assert CandidatesFrom(ctx, MessageClass(["ModelRunner"]), 5) == [];
    CouldReact05S5(ctx, MessageClass(["ModelRunner"]));
    assert CandidatesFrom(ctx, MessageClass(["ModelRunner"]), 4) == [];
    CouldReact05S4(ctx, MessageClass(["ModelRunner"]));
    assert CandidatesFrom(ctx, MessageClass(["ModelRunner"]), 3) == [];
    CouldReact05S3(ctx, MessageClass(["ModelRunner"]));
    assert CandidatesFrom(ctx, MessageClass(["ModelRunner"]), 2) == [2];
    CouldReact05S2(ctx, MessageClass(["ModelRunner"]));
    assert CandidatesFrom(ctx, MessageClass(["ModelRunner"]), 1) == [2];
    CouldReact05S1(ctx, MessageClass(["ModelRunner"]));
    assert CandidatesFrom(ctx, MessageClass(["ModelRunner"]), 0) == [2];
  }

  /** After S4 only S5b_1 could react to a NumberFormatException. */
  lemma CandidatesExceptionAfterS4(ctx: Situation)
    requires ctx.model == Model05 && ctx.latest == Some(StepRef(3))
    ensures Candidates(ctx, MessageClass(["Throwable", "Exception", "RuntimeException", "IllegalArgumentException", "NumberFormatException"])) == [8]
  {
    CouldReact05S5b_2(ctx, MessageClass(["Throwable", "Exception", "RuntimeException", "IllegalArgumentException", "NumberFormatException"]));
    assert CandidatesFrom(ctx, MessageClass(["Throwable", "Exception", "RuntimeException", "IllegalArgumentException", "NumberFormatException"]), 9) == [];
    CouldReact05S5b_1(ctx, MessageClass(["Throwable", "Exception", "RuntimeException", "IllegalArgumentException", "NumberFormatException"]));
    assert CandidatesFrom(ctx, MessageClass(["Throwable", "Exception", "RuntimeException", "IllegalArgumentException", "NumberFormatException"]), 8) == [8];
    CouldReact05S5a_2(ctx, MessageClass(["Throwable", "Exception", "RuntimeException", "IllegalArgumentException", "NumberFormatException"]));
    assert CandidatesFrom(ctx, MessageClass(["Throwable", "Exception", "RuntimeException", "IllegalArgumentException", "NumberFormatException"]), 7) == [8];
    CouldReact05S5a_1(ctx, MessageClass(["Throwable", "Exception", "RuntimeException", "IllegalArgumentException", "NumberFormatException"]));
    assert CandidatesFrom(ctx, MessageClass(["Throwable", "Exception", "RuntimeException", "IllegalArgumentException", "NumberFormatException"]), 6) == [8];
    CouldReact05S6(ctx, MessageClass(["Throwable", "Exception", "RuntimeException", "IllegalArgumentException", "NumberFormatException"]));
    assert CandidatesFrom(ctx, MessageClass(["Throwable", "Exception", "RuntimeException", "IllegalArgumentException", "NumberFormatException"]), 5) == [8];
    CouldReact05S5(ctx, MessageClass(["Throwable", "Exception", "RuntimeException", "IllegalArgumentException", "NumberFormatException"]));
    assert CandidatesFrom(ctx, MessageClass(["Throwable", "Exception", "RuntimeException", "IllegalArgumentException", "NumberFormatException"]), 4) == [8];
    CouldReact05S4(ctx, MessageClass(["Throwable", "Exception", "RuntimeException", "IllegalArgumentException", "NumberFormatException"]));
    assert CandidatesFrom(ctx, MessageClass(["Throwable", "Exception", "RuntimeException", "IllegalArgumentException", "NumberFormatException"]), 3) == [8];
    CouldReact05S3(ctx, MessageClass(["Throwable", "Exception", "RuntimeException", "IllegalArgumentException", "NumberFormatException"]));
    assert CandidatesFrom(ctx, MessageClass(["Throwable", "Exception", "RuntimeException", "IllegalArgumentException", "NumberFormatException"]), 2) == [8];
    CouldReact05S2(ctx, MessageClass(["Throwable", "Exception", "RuntimeException", "IllegalArgumentException", "NumberFormatException"]));
    assert CandidatesFrom(ctx, MessageClass(["Throwable", "Exception", "RuntimeException", "IllegalArgumentException", "NumberFormatException"]), 1) == [8];
    CouldReact05S1(ctx, MessageClass(["Throwable", "Exception", "RuntimeException", "IllegalArgumentException", "NumberFormatException"]));
    assert CandidatesFrom(ctx, MessageClass(["Throwable", "Exception", "RuntimeException", "IllegalArgumentException", "NumberFormatException"]), 0) == [8];
  }

  /** After S5b_1 only S5b_2 could react. */
  lemma CandidatesAfterS5b1(ctx: Situation)
    requires ctx.model == Model05 && ctx.latest == Some(StepRef(8)) && ctx.actor == Actor(1)
    ensures Candidates(ctx, MessageClass(["ModelRunner"])) == [9]
  {
    CouldReact05S5b_2(ctx, MessageClass(["ModelRunner"]));
    assert CandidatesFrom(ctx, MessageClass(["ModelRunner"]), 9) == [9];
    CouldReact05S5b_1(ctx, MessageClass(["ModelRunner"]));
    assert CandidatesFrom(ctx, MessageClass(["ModelRunner"]), 8) == [9];
    CouldReact05S5a_2(ctx, MessageClass(["ModelRunner"]));
    assert CandidatesFrom(ctx, MessageClass(["ModelRunner"]), 7) == [9];
    CouldReact05S5a_1(ctx, MessageClass(["ModelRunner"]));
    assert CandidatesFrom(ctx, MessageClass(["ModelRunner"]), 6) == [9];
    CouldReact05S6(ctx, MessageClass(["ModelRunner"]));
    assert CandidatesFrom(ctx, MessageClass(["ModelRunner"]), 5) == [9];
    CouldReact05S5(ctx, MessageClass(["ModelRunner"]));
    assert CandidatesFrom(ctx, MessageClass(["ModelRunner"]), 4) == [9];
    CouldReact05S4(ctx, MessageClass(["ModelRunner"]));
    assert CandidatesFrom(ctx, MessageClass(["ModelRunner"]), 3) == [9];
    CouldReact05S3(ctx, MessageClass(["ModelRunner"]));
    assert CandidatesFrom(ctx, MessageClass(["ModelRunner"]), 2) == [9];
    CouldReact05S2(ctx, MessageClass(["ModelRunner"]));
    assert CandidatesFrom(ctx, MessageClass(["ModelRunner"]), 1) == [9];
    CouldReact05S1(ctx, MessageClass(["ModelRunner"]));
    assert CandidatesFrom(ctx, MessageClass(["ModelRunner"]), 0) == [9];
  }

  /** After S5b_2 only S3 could react. */
  lemma CandidatesAfterS5b2(ctx: Situation)
    requires ctx.model == Model05 && ctx.latest == Some(StepRef(9)) && ctx.actor == Actor(1)
    ensures Candidates(ctx, MessageClass(["ModelRunner"])) == [2]
  {
    CouldReact05S5b_2(ctx, MessageClass(["ModelRunner"]));
    assert CandidatesFrom(ctx, MessageClass(["ModelRunner"]), 9) == [];
    CouldReact05S5b_1(ctx, MessageClass(["ModelRunner"]));
    assert CandidatesFrom(ctx, MessageClass(["ModelRunner"]), 8) == [];
    CouldReact05S5a_2(ctx, MessageClass(["ModelRunner"]));
    assert CandidatesFrom(ctx, MessageClass(["ModelRunner"]), 7) == [];
    CouldReact05S5a_1(ctx, MessageClass(["ModelRunner"]));
    assert CandidatesFrom(ctx, MessageClass(["ModelRunner"]), 6) == [];
    CouldReact05S6(ctx, MessageClass(["ModelRunner"]));
    assert CandidatesFrom(ctx, MessageClass(["ModelRunner"]), 5) == [];
    CouldReact05S5(ctx, MessageClass(["ModelRunner"]));
    assert CandidatesFrom(ctx, MessageClass(["ModelRunner"]), 4) == [];
    CouldReact05S4(ctx, MessageClass(["ModelRunner"]));
    assert CandidatesFrom(ctx, MessageClass(["ModelRunner"]), 3) == [];
    CouldReact05S3(ctx, MessageClass(["ModelRunner"]));
    assert CandidatesFrom(ctx, MessageClass(["ModelRunner"]), 2) == [2];
    CouldReact05S2(ctx, MessageClass(["ModelRunner"]));
    assert CandidatesFrom(ctx, MessageClass(["ModelRunner"]), 1) == [2];
    CouldReact05S1(ctx, MessageClass(["ModelRunner"]));
    assert CandidatesFrom(ctx, MessageClass(["ModelRunner"]), 0) == [2];
  }

  /** After S1 the user's text goes to S2. */
  lemma S2RunsAfterS1(parse: string -> Option<int>, st: RunState<Greeter>, text: string, fuel: nat)
    requires st.latest == Some(S1) && fuel >= 1
    ensures ReactTo(Model05, GreeterBehavior(parse), st, Message(EnterText, text), Actor(0), fuel)
      == Run(Model05, GreeterBehavior(parse), st, Message(EnterText, text), Actor(0), Step2, fuel - 1)
  {
    var b := GreeterBehavior(parse);
    CandidatesNameAfterS1(SituationOf(Model05, b, st, Actor(0)));
    Lookup05(1);
    ReactToSoleCandidate(Model05, b, st, Message(EnterText, text), Actor(0), fuel, 1);
  }

  /** After S2 the system runs S3. */
  lemma S3RunsAfterS2(parse: string -> Option<int>, st: RunState<Greeter>, fuel: nat)
    requires st.latest == Some(StepRef(1)) && fuel >= 1
    ensures Sweep(Model05, GreeterBehavior(parse), st, fuel)
      == Run(Model05, GreeterBehavior(parse), st, RunnerMessage, Actor(1), Step3, fuel - 1)
  {
    var b := GreeterBehavior(parse);
    CandidatesAfterS2(SituationOf(Model05, b, st, Actor(1)));
    Lookup05(2);
    ReactToSoleCandidate(Model05, b, st, RunnerMessage, Actor(1), fuel, 2);
  }

  /** After S3 the user's text goes to S4. */
  lemma S4RunsAfterS3(parse: string -> Option<int>, st: RunState<Greeter>, text: string, fuel: nat)
    requires st.latest == Some(S3) && fuel >= 1
    ensures ReactTo(Model05, GreeterBehavior(parse), st, Message(EnterText, text), Actor(0), fuel)
      == Run(Model05, GreeterBehavior(parse), st, Message(EnterText, text), Actor(0), Step4, fuel - 1)
  {
    var b := GreeterBehavior(parse);
    CandidatesAgeAfterS3(SituationOf(Model05, b, st, Actor(0)));
    Lookup05(3);
    ReactToSoleCandidate(Model05, b, st, Message(EnterText, text), Actor(0), fuel, 3);
  }

  /** After S4, with the age in bounds, the system runs S5. */
  lemma S5RunsAfterS4(parse: string -> Option<int>, st: RunState<Greeter>, fuel: nat)
    requires st.latest == Some(StepRef(3)) && !AgeIsOutOfBounds(st.data) && fuel >= 1
    ensures Sweep(Model05, GreeterBehavior(parse), st, fuel)
      == Run(Model05, GreeterBehavior(parse), st, RunnerMessage, Actor(1), Step5, fuel - 1)
  {
    var b := GreeterBehavior(parse);
    Holding05(parse, st.data);
    CandidatesAfterS4InBounds(SituationOf(Model05, b, st, Actor(1)));
    Lookup05(4);
    ReactToSoleCandidate(Model05, b, st, RunnerMessage, Actor(1), fuel, 4);
  }

  /** After S5 the system runs S6. */
  lemma S6RunsAfterS5(parse: string -> Option<int>, st: RunState<Greeter>, fuel: nat)
    requires st.latest == Some(StepRef(4)) && fuel >= 1
    ensures Sweep(Model05, GreeterBehavior(parse), st, fuel)
      == Run(Model05, GreeterBehavior(parse), st, RunnerMessage, Actor(1), Step6, fuel - 1)
  {
    var b := GreeterBehavior(parse);
    CandidatesAfterS5(SituationOf(Model05, b, st, Actor(1)));
    Lookup05(5);
    ReactToSoleCandidate(Model05, b, st, RunnerMessage, Actor(1), fuel, 5);
  }

  /** After S5a_1 the system runs S5a_2. */
  lemma S5a2RunsAfterS5a1(parse: string -> Option<int>, st: RunState<Greeter>, fuel: nat)
    requires st.latest == Some(StepRef(6)) && fuel >= 1
    ensures Sweep(Model05, GreeterBehavior(parse), st, fuel)
      == Run(Model05, GreeterBehavior(parse), st, RunnerMessage, Actor(1), Step5a2, fuel - 1)
  {
    var b := GreeterBehavior(parse);
    CandidatesAfterS5a1(SituationOf(Model05, b, st, Actor(1)));
    Lookup05(7);
    ReactToSoleCandidate(Model05, b, st, RunnerMessage, Actor(1), fuel, 7);
  }

  /** After S5a_2 the system runs S3 again. */
  lemma S3RunsAfterS5a2(parse: string -> Option<int>, st: RunState<Greeter>, fuel: nat)
    requires st.latest == Some(StepRef(7)) && fuel >= 1
    ensures Sweep(Model05, GreeterBehavior(parse), st, fuel)
      == Run(Model05, GreeterBehavior(parse), st, RunnerMessage, Actor(1), Step3, fuel - 1)
  {
    var b := GreeterBehavior(parse);
    CandidatesAfterS5a2(SituationOf(Model05, b, st, Actor(1)));
    Lookup05(2);
    ReactToSoleCandidate(Model05, b, st, RunnerMessage, Actor(1), fuel, 2);
  }

  /** After S4 a NumberFormatException goes to S5b_1. */
  lemma S5b1RunsOnException(parse: string -> Option<int>, st: RunState<Greeter>, text: string, actor: Actor, fuel: nat)
    requires st.latest == Some(StepRef(3)) && fuel >= 1
    ensures ReactTo(Model05, GreeterBehavior(parse), st, Message(NumberFormatException, text), actor, fuel)
      == Run(Model05, GreeterBehavior(parse), st, Message(NumberFormatException, text), actor, Step5b1, fuel - 1)
  {
    var b := GreeterBehavior(parse);
    CandidatesExceptionAfterS4(SituationOf(Model05, b, st, actor));
    Lookup05(8);
    ReactToSoleCandidate(Model05, b, st, Message(NumberFormatException, text), actor, fuel, 8);
  }

  /** After S5b_1 the system runs S5b_2. */
  lemma S5b2RunsAfterS5b1(parse: string -> Option<int>, st: RunState<Greeter>, fuel: nat)
    requires st.latest == Some(StepRef(8)) && fuel >= 1
    ensures Sweep(Model05, GreeterBehavior(parse), st, fuel)
      == Run(Model05, GreeterBehavior(parse), st, RunnerMessage, Actor(1), Step5b2, fuel - 1)
  {
    var b := GreeterBehavior(parse);
    CandidatesAfterS5b1(SituationOf(Model05, b, st, Actor(1)));
    Lookup05(9);
    ReactToSoleCandidate(Model05, b, st, RunnerMessage, Actor(1), fuel, 9);
  }

  /** After S5b_2 the system runs S3 again. */
  lemma S3RunsAfterS5b2(parse: string -> Option<int>, st: RunState<Greeter>, fuel: nat)
    requires st.latest == Some(StepRef(9)) && fuel >= 1
    ensures Sweep(Model05, GreeterBehavior(parse), st, fuel)
      == Run(Model05, GreeterBehavior(parse), st, RunnerMessage, Actor(1), Step3, fuel - 1)
  {
    var b := GreeterBehavior(parse);
    CandidatesAfterS5b2(SituationOf(Model05, b, st, Actor(1)));
    Lookup05(2);
    ReactToSoleCandidate(Model05, b, st, RunnerMessage, Actor(1), fuel, 2);
  }

  /**
   * After S4 with an out-of-bounds age, S5 and S5a_1 could both react, but S5a_1 is the rival
   * that S5's guard sees: S5a_1 is eligible and S5 is not.
   */
  lemma OnlyS5a1EligibleAfterS4(ctx: Situation)
    requires ctx.model == Model05 && ctx.latest == Some(StepRef(3)) && ctx.actor == Actor(1)
    requires "ageIsOutOfBounds" in ctx.holding
    ensures Candidates(ctx, RunnerClass) == [4, 6]
    ensures Eligible(ctx, Step5a1, RunnerClass) && !Eligible(ctx, Step5, RunnerClass)
  {
    CandidatesAfterS4OutOfBounds(ctx);
    GuardFreeCandidateIsEligible(ctx, RunnerClass, 6);
    CandidatesFromAreThoseThatCouldReact(ctx, RunnerClass, 0, 6);
    Lookup05(4);
    RivalMakesIneligible(ctx, RunnerClass, 4, 6);
  }

  /** The system event after S4 with the age out of bounds goes to S5a_1. */
  lemma S5a1RunsInsteadOfS5(parse: string -> Option<int>, st: RunState<Greeter>, fuel: nat)
    requires st.latest == Some(StepRef(3)) && AgeIsOutOfBounds(st.data) && fuel >= 1
    ensures Sweep(Model05, GreeterBehavior(parse), st, fuel)
      == Run(Model05, GreeterBehavior(parse), st, RunnerMessage, Actor(1), Step5a1, fuel - 1)
  {
    var b := GreeterBehavior(parse);
    Holding05(parse, st.data);
    OnlyS5a1EligibleAfterS4(SituationOf(Model05, b, st, Actor(1)));
    ReactToOnlyEligible(Model05, b, st, RunnerMessage, Actor(1), fuel, 6);
  }

  /** Starting: S1 runs at start and nothing follows it. */
  lemma StartRunsS1(parse: string -> Option<int>, fuel: nat)
    requires fuel >= 1
    ensures Start(Model05, GreeterBehavior(parse), Initial, fuel)
      == Outcome(Entered(Initial, Step1), [Step1], None)
  {
    var b := GreeterBehavior(parse);
    Holding05(parse, Initial.data);
    CandidatesAtStart(SituationOf(Model05, b, Initial, Actor(1)));
    Lookup05(0);
    ReactToSoleCandidate(Model05, b, Initial, RunnerMessage, Actor(1), fuel, 0);
    var st := Entered(Initial, Step1);
    CandidatesAfterS1(SituationOf(Model05, b, st, Actor(1)));
    NoCandidateChangesNothing(Model05, b, st, RunnerMessage, Actor(1), fuel - 1);
  }

  /** After S3 the system waits for the user. */
  lemma SweepAfterS3(parse: string -> Option<int>, st: RunState<Greeter>, fuel: nat)
    requires st.latest == Some(S3)
    ensures Sweep(Model05, GreeterBehavior(parse), st, fuel) == Outcome(st, [], None)
  {
    var b := GreeterBehavior(parse);
    Holding05(parse, st.data);
    CandidatesAfterS3(SituationOf(Model05, b, st, Actor(1)));
    NoCandidateChangesNothing(Model05, b, st, RunnerMessage, Actor(1), fuel);
  }

  /** After S6 nothing more happens. */
  lemma SweepAfterS6(parse: string -> Option<int>, st: RunState<Greeter>, fuel: nat)
    requires st.latest == Some(StepRef(5))
    ensures Sweep(Model05, GreeterBehavior(parse), st, fuel) == Outcome(st, [], None)
  {
    var b := GreeterBehavior(parse);
    Holding05(parse, st.data);
    CandidatesAfterS6(SituationOf(Model05, b, st, Actor(1)));
    NoCandidateChangesNothing(Model05, b, st, RunnerMessage, Actor(1), fuel);
  }

  /** S3 asks for the age, then the system waits for the user. */
  lemma RunS3(parse: string -> Option<int>, st: RunState<Greeter>, fuel: nat)
    ensures Run(Model05, GreeterBehavior(parse), st, RunnerMessage, Actor(1), Step3, fuel)
      == Outcome(Entered(st, Step3), [Step3], None)
  {
    SweepAfterS3(parse, Entered(st, Step3), fuel);
    ThenDone(Model05, GreeterBehavior(parse), st, RunnerMessage, Actor(1), Step3, fuel, st.data,
      Run(Model05, GreeterBehavior(parse), st, RunnerMessage, Actor(1), Step3, fuel),
      Outcome(Entered(st, Step3), [], None));
  }

  /** After S2 the system asks for the age (S3), then waits. */
  lemma SweepAfterS2(parse: string -> Option<int>, st: RunState<Greeter>, fuel: nat)
    requires st.latest == Some(StepRef(1)) && fuel >= 1
    ensures Sweep(Model05, GreeterBehavior(parse), st, fuel)
      == Outcome(Entered(st, Step3), [Step3], None)
  {
    S3RunsAfterS2(parse, st, fuel);
    RunS3(parse, st, fuel - 1);
  }

  /** S2's reaction saves the entered text as the first name. */
  lemma S2SavesName(parse: string -> Option<int>, d: Greeter, text: string)
    ensures Perform(GreeterBehavior(parse), Step2, d, Message(EnterText, text)) == Done(d.(firstName := text))
  {
  }

  /** S2 saves the name, and the system asks for the age (S3). */
  lemma RunS2(parse: string -> Option<int>, st: RunState<Greeter>, text: string, fuel: nat)
    requires fuel >= 1
    ensures Run(Model05, GreeterBehavior(parse), st, Message(EnterText, text), Actor(0), Step2, fuel)
      == Outcome(Entered(Entered(st, Step2).(data := st.data.(firstName := text)), Step3),
                 [Step2, Step3], None)
  {
    var d := st.data.(firstName := text);
    S2SavesName(parse, st.data, text);
    SweepAfterS2(parse, Entered(st, Step2).(data := d), fuel);
    ThenDone(Model05, GreeterBehavior(parse), st, Message(EnterText, text), Actor(0), Step2, fuel, d,
      Run(Model05, GreeterBehavior(parse), st, Message(EnterText, text), Actor(0), Step2, fuel),
      Outcome(Entered(Entered(st, Step2).(data := d), Step3), [Step3], None));
  }

  /** After S1, the user's text is the name (S2), and the system asks for the age (S3). */
  lemma NameAfterS1(parse: string -> Option<int>, st: RunState<Greeter>, text: string, fuel: nat)
    requires st.latest == Some(S1) && fuel >= 2
    ensures ReactTo(Model05, GreeterBehavior(parse), st, Message(EnterText, text), Actor(0), fuel)
      == Outcome(Entered(Entered(st, Step2).(data := st.data.(firstName := text)), Step3),
                 [Step2, Step3], None)
  {
    S2RunsAfterS1(parse, st, text, fuel);
    RunS2(parse, st, text, fuel - 1);
  }

  /** S6 stops the system, and nothing follows. */
  lemma RunS6(parse: string -> Option<int>, st: RunState<Greeter>, fuel: nat)
    ensures Run(Model05, GreeterBehavior(parse), st, RunnerMessage, Actor(1), Step6, fuel)
      == Outcome(Entered(st, Step6).(data := st.data.(stopped := true)), [Step6], None)
  {
    var d := st.data.(stopped := true);
    SweepAfterS6(parse, Entered(st, Step6).(data := d), fuel);
    ThenDone(Model05, GreeterBehavior(parse), st, RunnerMessage, Actor(1), Step6, fuel, d,
      Run(Model05, GreeterBehavior(parse), st, RunnerMessage, Actor(1), Step6, fuel),
      Outcome(Entered(st, Step6).(data := d), [], None));
  }

  /** After S5 the system stops (S6). */
  lemma SweepAfterS5(parse: string -> Option<int>, st: RunState<Greeter>, fuel: nat)
    requires st.latest == Some(StepRef(4)) && fuel >= 1
    ensures Sweep(Model05, GreeterBehavior(parse), st, fuel)
      == Outcome(Entered(st, Step6).(data := st.data.(stopped := true)), [Step6], None)
  {
    S6RunsAfterS5(parse, st, fuel);
    RunS6(parse, st, fuel - 1);
  }

  /** S5 greets the user, and the system stops (S6). */
  lemma RunS5(parse: string -> Option<int>, st: RunState<Greeter>, fuel: nat)
    requires fuel >= 1
    ensures Run(Model05, GreeterBehavior(parse), st, RunnerMessage, Actor(1), Step5, fuel)
      == Outcome(Entered(Entered(st, Step5), Step6).(data := st.data.(stopped := true)), [Step5, Step6], None)
  {
    SweepAfterS5(parse, Entered(st, Step5), fuel);
    ThenDone(Model05, GreeterBehavior(parse), st, RunnerMessage, Actor(1), Step5, fuel, st.data,
      Run(Model05, GreeterBehavior(parse), st, RunnerMessage, Actor(1), Step5, fuel),
      Outcome(Entered(Entered(st, Step5), Step6).(data := Entered(st, Step5).data.(stopped := true)), [Step6], None));
  }

  /** After S4 with an age in bounds, the system greets the user (S5) and stops (S6). */
  lemma SweepAfterS4InBounds(parse: string -> Option<int>, st: RunState<Greeter>, fuel: nat)
    requires st.latest == Some(StepRef(3)) && !AgeIsOutOfBounds(st.data) && fuel >= 2
    ensures Sweep(Model05, GreeterBehavior(parse), st, fuel)
      == Outcome(Entered(Entered(st, Step5), Step6).(data := st.data.(stopped := true)),
                 [Step5, Step6], None)
  {
    S5RunsAfterS4(parse, st, fuel);
    RunS5(parse, st, fuel - 1);
  }

  /** S5a_2 runs, and the flow continues at S3. */
  lemma RunS5a2(parse: string -> Option<int>, st: RunState<Greeter>, fuel: nat)
    requires fuel >= 1
    ensures Run(Model05, GreeterBehavior(parse), st, RunnerMessage, Actor(1), Step5a2, fuel)
      == Outcome(Entered(Entered(st, Step5a2), Step3), [Step5a2, Step3], None)
  {
    SweepAfterS5a2(parse, Entered(st, Step5a2), fuel);
    ThenDone(Model05, GreeterBehavior(parse), st, RunnerMessage, Actor(1), Step5a2, fuel, st.data,
      Run(Model05, GreeterBehavior(parse), st, RunnerMessage, Actor(1), Step5a2, fuel),
      Outcome(Entered(Entered(st, Step5a2), Step3), [Step3], None));
  }

  /** After S5a_2 the flow continues at S3. */
  lemma SweepAfterS5a2(parse: string -> Option<int>, st: RunState<Greeter>, fuel: nat)
    requires st.latest == Some(StepRef(7)) && fuel >= 1
    ensures Sweep(Model05, GreeterBehavior(parse), st, fuel)
      == Outcome(Entered(st, Step3), [Step3], None)
  {
    S3RunsAfterS5a2(parse, st, fuel);
    RunS3(parse, st, fuel - 1);
  }

  /** After S5a_1 come S5a_2 and S3. */
  lemma SweepAfterS5a1(parse: string -> Option<int>, st: RunState<Greeter>, fuel: nat)
    requires st.latest == Some(StepRef(6)) && fuel >= 2
    ensures Sweep(Model05, GreeterBehavior(parse), st, fuel)
      == Outcome(Entered(Entered(st, Step5a2), Step3), [Step5a2, Step3], None)
  {
    S5a2RunsAfterS5a1(parse, st, fuel);
    RunS5a2(parse, st, fuel - 1);
  }

  /** S5b_2 runs, and the flow continues at S3. */
  lemma RunS5b2(parse: string -> Option<int>, st: RunState<Greeter>, fuel: nat)
    requires fuel >= 1
    ensures Run(Model05, GreeterBehavior(parse), st, RunnerMessage, Actor(1), Step5b2, fuel)
      == Outcome(Entered(Entered(st, Step5b2), Step3), [Step5b2, Step3], None)
  {
    SweepAfterS5b2(parse, Entered(st, Step5b2), fuel);
    ThenDone(Model05, GreeterBehavior(parse), st, RunnerMessage, Actor(1), Step5b2, fuel, st.data,
      Run(Model05, GreeterBehavior(parse), st, RunnerMessage, Actor(1), Step5b2, fuel),
      Outcome(Entered(Entered(st, Step5b2), Step3), [Step3], None));
  }

  /** After S5b_2 the flow continues at S3. */
  lemma SweepAfterS5b2(parse: string -> Option<int>, st: RunState<Greeter>, fuel: nat)
    requires st.latest == Some(StepRef(9)) && fuel >= 1
    ensures Sweep(Model05, GreeterBehavior(parse), st, fuel)
      == Outcome(Entered(st, Step3), [Step3], None)
  {
    S3RunsAfterS5b2(parse, st, fuel);
    RunS3(parse, st, fuel - 1);
  }

  /** After S5b_1 come S5b_2 and S3. */
  lemma SweepAfterS5b1(parse: string -> Option<int>, st: RunState<Greeter>, fuel: nat)
    requires st.latest == Some(StepRef(8)) && fuel >= 2
    ensures Sweep(Model05, GreeterBehavior(parse), st, fuel)
      == Outcome(Entered(Entered(st, Step5b2), Step3), [Step5b2, Step3], None)
  {
    S5b2RunsAfterS5b1(parse, st, fuel);
    RunS5b2(parse, st, fuel - 1);
  }

  /** S5a_1 runs, then come S5a_2 and S3. */
  lemma RunS5a1(parse: string -> Option<int>, st: RunState<Greeter>, fuel: nat)
    requires fuel >= 2
    ensures Run(Model05, GreeterBehavior(parse), st, RunnerMessage, Actor(1), Step5a1, fuel)
      == Outcome(Entered(Entered(Entered(st, Step5a1), Step5a2), Step3), [Step5a1, Step5a2, Step3], None)
  {
    SweepAfterS5a1(parse, Entered(st, Step5a1), fuel);
    ThenDone(Model05, GreeterBehavior(parse), st, RunnerMessage, Actor(1), Step5a1, fuel, st.data,
      Run(Model05, GreeterBehavior(parse), st, RunnerMessage, Actor(1), Step5a1, fuel),
      Outcome(Entered(Entered(Entered(st, Step5a1), Step5a2), Step3), [Step5a2, Step3], None));
  }

  /** After S4 with an out-of-bounds age: S5a_1 instead of S5, then S5a_2 and S3. */
  lemma SweepAfterS4OutOfBounds(parse: string -> Option<int>, st: RunState<Greeter>, fuel: nat)
    requires st.latest == Some(StepRef(3)) && AgeIsOutOfBounds(st.data) && fuel >= 3
    ensures Sweep(Model05, GreeterBehavior(parse), st, fuel)
      == Outcome(Entered(Entered(Entered(st, Step5a1), Step5a2), Step3),
                 [Step5a1, Step5a2, Step3], None)
  {
    S5a1RunsInsteadOfS5(parse, st, fuel);
    RunS5a1(parse, st, fuel - 1);
  }

  /** S5b_1 handles the exception, then come S5b_2 and S3. */
  lemma RunS5b1(parse: string -> Option<int>, st: RunState<Greeter>, text: string, actor: Actor, fuel: nat)
    requires fuel >= 2
    ensures Run(Model05, GreeterBehavior(parse), st, Message(NumberFormatException, text), actor, Step5b1, fuel)
      == Outcome(Entered(Entered(Entered(st, Step5b1), Step5b2), Step3), [Step5b1, Step5b2, Step3], None)
  {
    SweepAfterS5b1(parse, Entered(st, Step5b1), fuel);
    ThenDone(Model05, GreeterBehavior(parse), st, Message(NumberFormatException, text), actor, Step5b1, fuel, st.data,
      Run(Model05, GreeterBehavior(parse), st, Message(NumberFormatException, text), actor, Step5b1, fuel),
      Outcome(Entered(Entered(Entered(st, Step5b1), Step5b2), Step3), [Step5b2, Step3], None));
  }

  /** A NumberFormatException raised after S4 goes to S5b_1, then come S5b_2 and S3. */
  lemma ExceptionAfterS4(parse: string -> Option<int>, st: RunState<Greeter>, text: string, actor: Actor, fuel: nat)
    requires st.latest == Some(StepRef(3)) && fuel >= 3
    ensures ReactTo(Model05, GreeterBehavior(parse), st, Message(NumberFormatException, text), actor, fuel)
      == Outcome(Entered(Entered(Entered(st, Step5b1), Step5b2), Step3),
                 [Step5b1, Step5b2, Step3], None)
  {
    S5b1RunsOnException(parse, st, text, actor, fuel);
    RunS5b1(parse, st, text, actor, fuel - 1);
  }

  /** S4's reaction saves a numerical age. */
  lemma S4SavesAge(parse: string -> Option<int>, d: Greeter, text: string, age: int)
    requires parse(text) == Some(age)
    ensures Perform(GreeterBehavior(parse), Step4, d, Message(EnterText, text)) == Done(d.(age := age))
  {
  }

  /** S4's reaction raises a NumberFormatException for a non-numerical age. */
  lemma S4RaisesOnNonNumerical(parse: string -> Option<int>, d: Greeter, text: string)
    requires parse(text) == None
    ensures Perform(GreeterBehavior(parse), Step4, d, Message(EnterText, text)) == Raise(d, Message(NumberFormatException, text))
  {
  }

  /** S4 run on an age in bounds: the age is saved, the user greeted (S5) and the system stopped (S6). */
  lemma RunS4InBounds(parse: string -> Option<int>, st: RunState<Greeter>, text: string, age: int, fuel: nat)
    requires fuel >= 2
    requires parse(text) == Some(age) && MinAge <= age <= MaxAge
    ensures Run(Model05, GreeterBehavior(parse), st, Message(EnterText, text), Actor(0), Step4, fuel)
      == Outcome(Entered(Entered(Entered(st, Step4).(data := st.data.(age := age)), Step5), Step6)
                   .(data := st.data.(age := age, stopped := true)),
                 [Step4, Step5, Step6], None)
  {
    var d := st.data.(age := age);
    S4SavesAge(parse, st.data, text, age);
    SweepAfterS4InBounds(parse, Entered(st, Step4).(data := d), fuel);
    ThenDone(Model05, GreeterBehavior(parse), st, Message(EnterText, text), Actor(0), Step4, fuel, d,
      Run(Model05, GreeterBehavior(parse), st, Message(EnterText, text), Actor(0), Step4, fuel),
      Outcome(Entered(Entered((Entered(st, Step4).(data := d)), Step5), Step6).(data := (Entered(st, Step4).(data := d)).data.(stopped := true)), [Step5, Step6], None));
  }

  /** After S3, an age in bounds is saved (S4), the user greeted (S5) and the system stopped (S6). */
  lemma AgeInBoundsAfterS3(parse: string -> Option<int>, st: RunState<Greeter>, text: string, age: int, fuel: nat)
    requires st.latest == Some(S3) && fuel >= 3
    requires parse(text) == Some(age) && MinAge <= age <= MaxAge
    ensures ReactTo(Model05, GreeterBehavior(parse), st, Message(EnterText, text), Actor(0), fuel)
      == Outcome(Entered(Entered(Entered(st, Step4).(data := st.data.(age := age)), Step5), Step6)
                   .(data := st.data.(age := age, stopped := true)),
                 [Step4, Step5, Step6], None)
  {
    S4RunsAfterS3(parse, st, text, fuel);
    RunS4InBounds(parse, st, text, age, fuel - 1);
  }

  /** S4 run on an out-of-bounds age: the age is saved and the flow goes through S5a_1 and S5a_2 back to S3. */
  lemma RunS4OutOfBounds(parse: string -> Option<int>, st: RunState<Greeter>, text: string, age: int, fuel: nat)
    requires fuel >= 3
    requires parse(text) == Some(age) && (age < MinAge || age > MaxAge)
    ensures Run(Model05, GreeterBehavior(parse), st, Message(EnterText, text), Actor(0), Step4, fuel)
      == Outcome(Entered(Entered(Entered(Entered(st, Step4).(data := st.data.(age := age)), Step5a1),
                   Step5a2), Step3),
                 [Step4, Step5a1, Step5a2, Step3], None)
  {
    var d := st.data.(age := age);
    S4SavesAge(parse, st.data, text, age);
    SweepAfterS4OutOfBounds(parse, Entered(st, Step4).(data := d), fuel);
    ThenDone(Model05, GreeterBehavior(parse), st, Message(EnterText, text), Actor(0), Step4, fuel, d,
      Run(Model05, GreeterBehavior(parse), st, Message(EnterText, text), Actor(0), Step4, fuel),
      Outcome(Entered(Entered(Entered((Entered(st, Step4).(data := d)), Step5a1), Step5a2), Step3), [Step5a1, Step5a2, Step3], None));
  }

  /** After S3, an out-of-bounds age is saved (S4) and the flow goes through S5a_1 and S5a_2 back to S3. */
  lemma AgeOutOfBoundsAfterS3(parse: string -> Option<int>, st: RunState<Greeter>, text: string, age: int, fuel: nat)
    requires st.latest == Some(S3) && fuel >= 4
    requires parse(text) == Some(age) && (age < MinAge || age > MaxAge)
    ensures ReactTo(Model05, GreeterBehavior(parse), st, Message(EnterText, text), Actor(0), fuel)
      == Outcome(Entered(Entered(Entered(Entered(st, Step4).(data := st.data.(age := age)), Step5a1),
                   Step5a2), Step3),
                 [Step4, Step5a1, Step5a2, Step3], None)
  {
    S4RunsAfterS3(parse, st, text, fuel);
    RunS4OutOfBounds(parse, st, text, age, fuel - 1);
  }

  /** S5b_1 handles the exception that S4 raises. */
  lemma ExceptionIsHandled05(text: string)
    ensures Handles(Model05, Message(NumberFormatException, text))
  {
    assert IsInstanceOf(Message(NumberFormatException, text), Model05.steps[8].messageClass);
    HandlesIffSomeStepAccepts(Model05, Message(NumberFormatException, text));
  }

  /**
   * S4 run on a non-numerical age: S4 raises, the flow goes through S5b_1 and S5b_2 back to S3,
   * and the system then waits for the user.
   */
  lemma RunS4NonNumerical(parse: string -> Option<int>, st: RunState<Greeter>, text: string, fuel: nat)
    requires fuel >= 3
    requires parse(text) == None
    ensures Run(Model05, GreeterBehavior(parse), st, Message(EnterText, text), Actor(0), Step4, fuel)
      == Outcome(Entered(Entered(Entered(Entered(st, Step4), Step5b1), Step5b2), Step3),
                 [Step4, Step5b1, Step5b2, Step3], None)
  {
    var e := Message(NumberFormatException, text);
    S4RaisesOnNonNumerical(parse, st.data, text);
    ExceptionIsHandled05(text);
    var handled := Entered(Entered(Entered(Entered(st, Step4), Step5b1), Step5b2), Step3);
    ExceptionAfterS4(parse, Entered(st, Step4), text, Actor(0), fuel);
    SweepAfterS3(parse, handled, fuel);
    ThenRaise(Model05, GreeterBehavior(parse), st, Message(EnterText, text), Actor(0), Step4, fuel, st.data, e,
      Run(Model05, GreeterBehavior(parse), st, Message(EnterText, text), Actor(0), Step4, fuel),
      Outcome(handled, [Step5b1, Step5b2, Step3], None), Outcome(handled, [], None));
    assert [Step4] + [Step5b1, Step5b2, Step3] + [] == [Step4, Step5b1, Step5b2, Step3];
  }

  /** After S3, a non-numerical age makes S4 raise, and the flow goes through S5b_1 and S5b_2 back to S3. */
  lemma AgeNonNumericalAfterS3(parse: string -> Option<int>, st: RunState<Greeter>, text: string, fuel: nat)
    requires st.latest == Some(S3) && fuel >= 4
    requires parse(text) == None
    ensures ReactTo(Model05, GreeterBehavior(parse), st, Message(EnterText, text), Actor(0), fuel)
      == Outcome(Entered(Entered(Entered(Entered(st, Step4), Step5b1), Step5b2), Step3),
                 [Step4, Step5b1, Step5b2, Step3], None)
  {
    S4RunsAfterS3(parse, st, text, fuel);
    RunS4NonNumerical(parse, st, text, fuel - 1);
  }

  /** The recorded run with a correct name and age: S1 to S6. */
  lemma CorrectNameAndAge(parse: string -> Option<int>, fuel: nat)
    requires parse("39") == Some(39) && fuel >= 3
    ensures var o := RunAndReact(Model05, GreeterBehavior(parse), Initial, [Message(EnterText, "John"), Message(EnterText, "39")], fuel);
      o.failure == None && o.state.recorded == ["S1", "S2", "S3", "S4", "S5", "S6"] && o.state.data == Greeter("John", 39, true)
  {
    StartRunsS1(parse, fuel);
    var st1 := Entered(Initial, Step1);
    NameAfterS1(parse, st1, "John", fuel);
    var st3 := Entered(Entered(st1, Step2).(data := st1.data.(firstName := "John")), Step3);
    AgeInBoundsAfterS3(parse, st3, "39", 39, fuel);
    ReactToTwo(Model05, GreeterBehavior(parse), st1, Message(EnterText, "John"), Message(EnterText, "39"), fuel);
  }

  /** The recorded run with an out-of-bounds age: S5a_1 runs instead of S5, and the flow continues at S3. */
  lemma OutOfBoundsAge(parse: string -> Option<int>, fuel: nat)
    requires parse("1000") == Some(1000) && fuel >= 4
    ensures var o := RunAndReact(Model05, GreeterBehavior(parse), Initial, [Message(EnterText, "John"), Message(EnterText, "1000")], fuel);
      o.failure == None && o.state.recorded == ["S1", "S2", "S3", "S4", "S5a_1", "S5a_2", "S3"] && o.state.latest == Some(S3)
  {
    StartRunsS1(parse, fuel);
    var st1 := Entered(Initial, Step1);
    NameAfterS1(parse, st1, "John", fuel);
    var st3 := Entered(Entered(st1, Step2).(data := st1.data.(firstName := "John")), Step3);
    AgeOutOfBoundsAfterS3(parse, st3, "1000", 1000, fuel);
    ReactToTwo(Model05, GreeterBehavior(parse), st1, Message(EnterText, "John"), Message(EnterText, "1000"), fuel);
  }

  /** The recorded run with a non-numerical age: the exception goes to S5b_1, and the flow continues at S3. */
  lemma NonNumericalAge(parse: string -> Option<int>, fuel: nat)
    requires parse("NON-NUMERICAL-AGE") == None && fuel >= 4
    ensures var o := RunAndReact(Model05, GreeterBehavior(parse), Initial, [Message(EnterText, "John"), Message(EnterText, "NON-NUMERICAL-AGE")], fuel);
      o.failure == None && o.state.recorded == ["S1", "S2", "S3", "S4", "S5b_1", "S5b_2", "S3"] && o.state.latest == Some(S3)
  {
    StartRunsS1(parse, fuel);
    var st1 := Entered(Initial, Step1);
    NameAfterS1(parse, st1, "John", fuel);
    var st3 := Entered(Entered(st1, Step2).(data := st1.data.(firstName := "John")), Step3);
    AgeNonNumericalAfterS3(parse, st3, "NON-NUMERICAL-AGE", fuel);
    ReactToTwo(Model05, GreeterBehavior(parse), st1, Message(EnterText, "John"), Message(EnterText, "NON-NUMERICAL-AGE"), fuel);
  }
}
