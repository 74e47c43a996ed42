/**
 * The HelloWorld04 example as a concrete model: one basic flow S1..S5 that asks for the name and
 * the age and greets the user. There is no alternative flow, so a non-numerical age raises an
 * exception that no step handles. The run below is the run of the example's test, with integer
 * parsing left as a parameter.
 */
module HelloWorld04 {
  import opened Wrappers
  import opened Messages
  import opened ModelGraph
  import opened FlowPositions
  import opened StepPredicates
  import opened Runner
  import opened Greeting

  /** The model. Steps are numbered in declaration order, S1 = 0 to S5 = 4. */
  const Step1 := SystemStep(StepRef(0), "S1", None, Some("asksForName"))
  const Step2 := UserStep(StepRef(1), "S2", StepRef(0), "savesName")
  const Step3 := SystemStep(StepRef(2), "S3", Some(StepRef(1)), Some("asksForAge"))
  const Step4 := UserStep(StepRef(3), "S4", StepRef(2), "savesAge")
  const Step5 := SystemStep(StepRef(4), "S5", Some(StepRef(3)), Some("greetsUser"))

  const Model04 := Model([Step1, Step2, Step3, Step4, Step5], Actor(0), Actor(1))

  /** Each step's reference is its index, so references are unique and lookups find the step. */
  lemma StepsAreNumbered04()
    ensures forall i :: 0 <= i < |Model04.steps| ==> Model04.steps[i].ref == StepRef(i)
    ensures UniqueRefs(Model04)
  {
    forall i | 0 <= i < |Model04.steps|
      ensures Model04.steps[i].ref == StepRef(i)
    {
      assert i == 0 || i == 1 || i == 2 || i == 3 || i == 4;
    }
  }

  lemma Lookup04(k: nat)
    requires k < |Model04.steps|
    ensures Lookup(Model04, Model04.steps[k].ref) == Some(Model04.steps[k])
  {
    StepsAreNumbered04();
    LookupFindsStep(Model04, k);
  }

  /** S1 could react exactly to messages of its class, at its position. */
  lemma CouldReact04S1(ctx: Situation, cls: MessageClass)
    requires ctx.model == Model04
    ensures CouldReact(ctx, Model04.steps[0], cls) <==> IsSameOrSubclass(cls, MessageClass(["ModelRunner"])) && ctx.latest == None
  {
    var t := Model04.steps[0];
    assert t.actors == [Actor(1)] && t.messageClass == MessageClass(["ModelRunner"]);
    assert t.stepPredicate == And(AtPosition(FlowPosition(After(None), [])), NoOtherStepCouldReactThan(StepRef(0)));
    assert ActorMatches(ctx, t);
    assert EvalGuardsAside(t.stepPredicate, ctx) <==> ctx.latest == None;
  }

  /** S2 could react exactly to messages of its class, at its position. */
  lemma CouldReact04S2(ctx: Situation, cls: MessageClass)
    requires ctx.model == Model04
    ensures CouldReact(ctx, Model04.steps[1], cls) <==> ctx.actor == Actor(0) && IsSameOrSubclass(cls, MessageClass(["EnterText"])) && ctx.latest == Some(StepRef(0))
  {
    var t := Model04.steps[1];
    assert t.actors == [Actor(0)] && t.messageClass == MessageClass(["EnterText"]);
    assert t.stepPredicate == And(AtPosition(FlowPosition(After(Some(StepRef(0))), [])), NoOtherStepCouldReactThan(StepRef(1)));
    assert ActorMatches(ctx, t) <==> ctx.actor == Actor(0);
    assert EvalGuardsAside(t.stepPredicate, ctx) <==> ctx.latest == Some(StepRef(0));
  }

  /** S3 could react exactly to messages of its class, at its position. */
  lemma CouldReact04S3(ctx: Situation, cls: MessageClass)
    requires ctx.model == Model04
    ensures CouldReact(ctx, Model04.steps[2], cls) <==> IsSameOrSubclass(cls, MessageClass(["ModelRunner"])) && ctx.latest == Some(StepRef(1))
  {
    var t := Model04.steps[2];
    assert t.actors == [Actor(1)] && t.messageClass == MessageClass(["ModelRunner"]);
    assert t.stepPredicate == And(AtPosition(FlowPosition(After(Some(StepRef(1))), [])), NoOtherStepCouldReactThan(StepRef(2)));
    assert ActorMatches(ctx, t);
    assert EvalGuardsAside(t.stepPredicate, ctx) <==> ctx.latest == Some(StepRef(1));
  }

  /** S4 could react exactly to messages of its class, at its position. */
  lemma CouldReact04S4(ctx: Situation, cls: MessageClass)
    requires ctx.model == Model04
    ensures CouldReact(ctx, Model04.steps[3], cls) <==> ctx.actor == Actor(0) && IsSameOrSubclass(cls, MessageClass(["EnterText"])) && ctx.latest == Some(StepRef(2))
  {
    var t := Model04.steps[3];
    assert t.actors == [Actor(0)] && t.messageClass == MessageClass(["EnterText"]);
    assert t.stepPredicate == And(AtPosition(FlowPosition(After(Some(StepRef(2))), [])), NoOtherStepCouldReactThan(StepRef(3)));
    assert ActorMatches(ctx, t) <==> ctx.actor == Actor(0);
    assert EvalGuardsAside(t.stepPredicate, ctx) <==> ctx.latest == Some(StepRef(2));
  }

  /** S5 could react exactly to messages of its class, at its position. */
  lemma CouldReact04S5(ctx: Situation, cls: MessageClass)
    requires ctx.model == Model04
    ensures CouldReact(ctx, Model04.steps[4], cls) <==> IsSameOrSubclass(cls, MessageClass(["ModelRunner"])) && ctx.latest == Some(StepRef(3))
  {
    var t := Model04.steps[4];
    assert t.actors == [Actor(1)] && t.messageClass == MessageClass(["ModelRunner"]);
    assert t.stepPredicate == And(AtPosition(FlowPosition(After(Some(StepRef(3))), [])), NoOtherStepCouldReactThan(StepRef(4)));
    assert ActorMatches(ctx, t);
    assert EvalGuardsAside(t.stepPredicate, ctx) <==> ctx.latest == Some(StepRef(3));
  }

  /** At start only S1 could react. */
  lemma CandidatesAtStart(ctx: Situation)
    requires ctx.model == Model04 && ctx.latest == None && ctx.actor == Actor(1)
    ensures Candidates(ctx, MessageClass(["ModelRunner"])) == [0]
  {
    CouldReact04S5(ctx, MessageClass(["ModelRunner"]));
    assert CandidatesFrom(ctx, MessageClass(["ModelRunner"]), 4) == [];
    CouldReact04S4(ctx, MessageClass(["ModelRunner"]));
    assert CandidatesFrom(ctx, MessageClass(["ModelRunner"]), 3) == [];
    CouldReact04S3(ctx, MessageClass(["ModelRunner"]));
    assert CandidatesFrom(ctx, MessageClass(["ModelRunner"]), 2) == [];
    CouldReact04S2(ctx, MessageClass(["ModelRunner"]));
    assert CandidatesFrom(ctx, MessageClass(["ModelRunner"]), 1) == [];
    CouldReact04S1(ctx, MessageClass(["ModelRunner"]));
    assert CandidatesFrom(ctx, MessageClass(["ModelRunner"]), 0) == [0];
  }

  /** After S1 no step could react on its own. */
  lemma CandidatesAfterS1(ctx: Situation)
    requires ctx.model == Model04 && ctx.latest == Some(StepRef(0)) && ctx.actor == Actor(1)
    ensures Candidates(ctx, MessageClass(["ModelRunner"])) == []
  {
    CouldReact04S5(ctx, MessageClass(["ModelRunner"]));
    assert CandidatesFrom(ctx, MessageClass(["ModelRunner"]), 4) == [];
    CouldReact04S4(ctx, MessageClass(["ModelRunner"]));
    assert CandidatesFrom(ctx, MessageClass(["ModelRunner"]), 3) == [];
    CouldReact04S3(ctx, MessageClass(["ModelRunner"]));
    assert CandidatesFrom(ctx, MessageClass(["ModelRunner"]), 2) == [];
    CouldReact04S2(ctx, MessageClass(["ModelRunner"]));
    assert CandidatesFrom(ctx, MessageClass(["ModelRunner"]), 1) == [];
    CouldReact04S1(ctx, MessageClass(["ModelRunner"]));
    assert CandidatesFrom(ctx, MessageClass(["ModelRunner"]), 0) == [];
  }

  /** After S1 only S2 could react to the user's text. */
  lemma CandidatesNameAfterS1(ctx: Situation)
    requires ctx.model == Model04 && ctx.latest == Some(StepRef(0)) && ctx.actor == Actor(0)
    ensures Candidates(ctx, MessageClass(["EnterText"])) == [1]
  {
    CouldReact04S5(ctx, MessageClass(["EnterText"]));
    assert CandidatesFrom(ctx, MessageClass(["EnterText"]), 4) == [];
    CouldReact04S4(ctx, MessageClass(["EnterText"]));
    assert CandidatesFrom(ctx, MessageClass(["EnterText"]), 3) == [];
    CouldReact04S3(ctx, MessageClass(["EnterText"]));
    assert CandidatesFrom(ctx, MessageClass(["EnterText"]), 2) == [];
    CouldReact04S2(ctx, MessageClass(["EnterText"]));
    assert CandidatesFrom(ctx, MessageClass(["EnterText"]), 1) == [1];
    CouldReact04S1(ctx, MessageClass(["EnterText"]));
    assert CandidatesFrom(ctx, MessageClass(["EnterText"]), 0) == [1];
  }

  /** After S2 only S3 could react. */
  lemma CandidatesAfterS2(ctx: Situation)
    requires ctx.model == Model04 && ctx.latest == Some(StepRef(1)) && ctx.actor == Actor(1)
    ensures Candidates(ctx, MessageClass(["ModelRunner"])) == [2]
  {
    CouldReact04S5(ctx, MessageClass(["ModelRunner"]));
    assert CandidatesFrom(ctx, MessageClass(["ModelRunner"]), 4) == [];
    CouldReact04S4(ctx, MessageClass(["ModelRunner"]));
    assert CandidatesFrom(ctx, MessageClass(["ModelRunner"]), 3) == [];
    CouldReact04S3(ctx, MessageClass(["ModelRunner"]));
    assert CandidatesFrom(ctx, MessageClass(["ModelRunner"]), 2) == [2];
    CouldReact04S2(ctx, MessageClass(["ModelRunner"]));
    assert CandidatesFrom(ctx, MessageClass(["ModelRunner"]), 1) == [2];
    CouldReact04S1(ctx, MessageClass(["ModelRunner"]));
    assert CandidatesFrom(ctx, MessageClass(["ModelRunner"]), 0) == [2];
  }

  /** After S3 no step could react on its own. */
  lemma CandidatesAfterS3(ctx: Situation)
    requires ctx.model == Model04 && ctx.latest == Some(StepRef(2)) && ctx.actor == Actor(1)
    ensures Candidates(ctx, MessageClass(["ModelRunner"])) == []
  {
    CouldReact04S5(ctx, MessageClass(["ModelRunner"]));
    assert CandidatesFrom(ctx, MessageClass(["ModelRunner"]), 4) == [];
    CouldReact04S4(ctx, MessageClass(["ModelRunner"]));
    assert CandidatesFrom(ctx, MessageClass(["ModelRunner"]), 3) == [];
    CouldReact04S3(ctx, MessageClass(["ModelRunner"]));
    assert CandidatesFrom(ctx, MessageClass(["ModelRunner"]), 2) == [];
    CouldReact04S2(ctx, MessageClass(["ModelRunner"]));
    assert CandidatesFrom(ctx, MessageClass(["ModelRunner"]), 1) == [];
    CouldReact04S1(ctx, MessageClass(["ModelRunner"]));
    assert CandidatesFrom(ctx, MessageClass(["ModelRunner"]), 0) == [];
  }

  /** After S3 only S4 could react to the user's text. */
  lemma CandidatesAgeAfterS3(ctx: Situation)
    requires ctx.model == Model04 && ctx.latest == Some(StepRef(2)) && ctx.actor == Actor(0)
    ensures Candidates(ctx, MessageClass(["EnterText"])) == [3]
  {
    CouldReact04S5(ctx, MessageClass(["EnterText"]));
    assert CandidatesFrom(ctx, MessageClass(["EnterText"]), 4) == [];
    CouldReact04S4(ctx, MessageClass(["EnterText"]));
    assert CandidatesFrom(ctx, MessageClass(["EnterText"]), 3) == [3];
    CouldReact04S3(ctx, MessageClass(["EnterText"]));
    assert CandidatesFrom(ctx, MessageClass(["EnterText"]), 2) == [3];
    CouldReact04S2(ctx, MessageClass(["EnterText"]));
    assert CandidatesFrom(ctx, MessageClass(["EnterText"]), 1) == [3];
    CouldReact04S1(ctx, MessageClass(["EnterText"]));
    assert CandidatesFrom(ctx, MessageClass(["EnterText"]), 0) == [3];
  }

  /** After S4 only S5 could react. */
  lemma CandidatesAfterS4(ctx: Situation)
    requires ctx.model == Model04 && ctx.latest == Some(StepRef(3)) && ctx.actor == Actor(1)
    ensures Candidates(ctx, MessageClass(["ModelRunner"])) == [4]
  {
    CouldReact04S5(ctx, MessageClass(["ModelRunner"]));
    assert CandidatesFrom(ctx, MessageClass(["ModelRunner"]), 4) == [4];
    CouldReact04S4(ctx, MessageClass(["ModelRunner"]));
    assert CandidatesFrom(ctx, MessageClass(["ModelRunner"]), 3) == [4];
    CouldReact04S3(ctx, MessageClass(["ModelRunner"]));
    assert CandidatesFrom(ctx, MessageClass(["ModelRunner"]), 2) == [4];
    CouldReact04S2(ctx, MessageClass(["ModelRunner"]));
    assert CandidatesFrom(ctx, MessageClass(["ModelRunner"]), 1) == [4];
    CouldReact04S1(ctx, MessageClass(["ModelRunner"]));
    assert CandidatesFrom(ctx, MessageClass(["ModelRunner"]), 0) == [4];
  }

  /** After S5 no step could react. */
  lemma CandidatesAfterS5(ctx: Situation)
    requires ctx.model == Model04 && ctx.latest == Some(StepRef(4)) && ctx.actor == Actor(1)
    ensures Candidates(ctx, MessageClass(["ModelRunner"])) == []
  {
    CouldReact04S5(ctx, MessageClass(["ModelRunner"]));
    assert CandidatesFrom(ctx, MessageClass(["ModelRunner"]), 4) == [];
    CouldReact04S4(ctx, MessageClass(["ModelRunner"]));
    assert CandidatesFrom(ctx, MessageClass(["ModelRunner"]), 3) == [];
    CouldReact04S3(ctx, MessageClass(["ModelRunner"]));
    assert CandidatesFrom(ctx, MessageClass(["ModelRunner"]), 2) == [];
    CouldReact04S2(ctx, MessageClass(["ModelRunner"]));
    assert CandidatesFrom(ctx, MessageClass(["ModelRunner"]), 1) == [];
    CouldReact04S1(ctx, MessageClass(["ModelRunner"]));
    assert CandidatesFrom(ctx, MessageClass(["ModelRunner"]), 0) == [];
  }

  /** After S1 the user's text goes to S2. */
  lemma S2RunsAfterS1(parse: string -> Option<int>, st: RunState<Greeter>, text: string, fuel: nat)
    requires st.latest == Some(StepRef(0)) && fuel >= 1
    ensures ReactTo(Model04, GreeterBehavior(parse), st, Message(EnterText, text), Actor(0), fuel)
      == Run(Model04, GreeterBehavior(parse), st, Message(EnterText, text), Actor(0), Step2, fuel - 1)
  {
    var b := GreeterBehavior(parse);
    CandidatesNameAfterS1(SituationOf(Model04, b, st, Actor(0)));
    Lookup04(1);
    ReactToSoleCandidate(Model04, b, st, Message(EnterText, text), Actor(0), fuel, 1);
  }

  /** After S2 the system runs S3. */
  lemma S3RunsAfterS2(parse: string -> Option<int>, st: RunState<Greeter>, fuel: nat)
    requires st.latest == Some(StepRef(1)) && fuel >= 1
    ensures Sweep(Model04, GreeterBehavior(parse), st, fuel)
      == Run(Model04, GreeterBehavior(parse), st, RunnerMessage, Actor(1), Step3, fuel - 1)
  {
    var b := GreeterBehavior(parse);
    CandidatesAfterS2(SituationOf(Model04, b, st, Actor(1)));
    Lookup04(2);
    ReactToSoleCandidate(Model04, b, st, RunnerMessage, Actor(1), fuel, 2);
  }

  /** After S3 the user's text goes to S4. */
  lemma S4RunsAfterS3(parse: string -> Option<int>, st: RunState<Greeter>, text: string, fuel: nat)
    requires st.latest == Some(StepRef(2)) && fuel >= 1
    ensures ReactTo(Model04, GreeterBehavior(parse), st, Message(EnterText, text), Actor(0), fuel)
      == Run(Model04, GreeterBehavior(parse), st, Message(EnterText, text), Actor(0), Step4, fuel - 1)
  {
    var b := GreeterBehavior(parse);
    CandidatesAgeAfterS3(SituationOf(Model04, b, st, Actor(0)));
    Lookup04(3);
    ReactToSoleCandidate(Model04, b, st, Message(EnterText, text), Actor(0), fuel, 3);
  }

  /** After S4 the system runs S5. */
  lemma S5RunsAfterS4(parse: string -> Option<int>, st: RunState<Greeter>, fuel: nat)
    requires st.latest == Some(StepRef(3)) && fuel >= 1
    ensures Sweep(Model04, GreeterBehavior(parse), st, fuel)
      == Run(Model04, GreeterBehavior(parse), st, RunnerMessage, Actor(1), Step5, fuel - 1)
  {
    var b := GreeterBehavior(parse);
    CandidatesAfterS4(SituationOf(Model04, b, st, Actor(1)));
    Lookup04(4);
    ReactToSoleCandidate(Model04, b, st, RunnerMessage, Actor(1), fuel, 4);
  }

  /** Starting: S1 runs at start and nothing follows it. */
  lemma StartRunsS1(parse: string -> Option<int>, fuel: nat)
    requires fuel >= 1
    ensures Start(Model04, GreeterBehavior(parse), Initial, fuel)
      == Outcome(Entered(Initial, Step1), [Step1], None)
  {
    var b := GreeterBehavior(parse);
    CandidatesAtStart(SituationOf(Model04, b, Initial, Actor(1)));
    Lookup04(0);
    ReactToSoleCandidate(Model04, b, Initial, RunnerMessage, Actor(1), fuel, 0);
    var st := Entered(Initial, Step1);
    CandidatesAfterS1(SituationOf(Model04, b, st, Actor(1)));
    NoCandidateChangesNothing(Model04, b, st, RunnerMessage, Actor(1), fuel - 1);
  }

  /** After S3 the system waits for the user. */
  lemma SweepAfterS3(parse: string -> Option<int>, st: RunState<Greeter>, fuel: nat)
    requires st.latest == Some(StepRef(2))
    ensures Sweep(Model04, GreeterBehavior(parse), st, fuel) == Outcome(st, [], None)
  {
    var b := GreeterBehavior(parse);
    CandidatesAfterS3(SituationOf(Model04, b, st, Actor(1)));
    NoCandidateChangesNothing(Model04, b, st, RunnerMessage, Actor(1), fuel);
  }

  /** After S5 nothing more happens. */
  lemma SweepAfterS5(parse: string -> Option<int>, st: RunState<Greeter>, fuel: nat)
    requires st.latest == Some(StepRef(4))
    ensures Sweep(Model04, GreeterBehavior(parse), st, fuel) == Outcome(st, [], None)
  {
    var b := GreeterBehavior(parse);
    CandidatesAfterS5(SituationOf(Model04, b, st, Actor(1)));
    NoCandidateChangesNothing(Model04, b, st, RunnerMessage, Actor(1), fuel);
  }

  /** S3 asks for the age, then the system waits for the user. */
  lemma RunS3(parse: string -> Option<int>, st: RunState<Greeter>, fuel: nat)
    ensures Run(Model04, GreeterBehavior(parse), st, RunnerMessage, Actor(1), Step3, fuel)
      == Outcome(Entered(st, Step3), [Step3], None)
  {
    SweepAfterS3(parse, Entered(st, Step3), fuel);
    ThenDone(Model04, GreeterBehavior(parse), st, RunnerMessage, Actor(1), Step3, fuel, st.data,
      Run(Model04, GreeterBehavior(parse), st, RunnerMessage, Actor(1), Step3, fuel),
      Outcome(Entered(st, Step3), [], None));
  }

  /** After S2 the system asks for the age (S3), then waits. */
  lemma SweepAfterS2(parse: string -> Option<int>, st: RunState<Greeter>, fuel: nat)
    requires st.latest == Some(StepRef(1)) && fuel >= 1
    ensures Sweep(Model04, GreeterBehavior(parse), st, fuel)
      == Outcome(Entered(st, Step3), [Step3], None)
  {
    S3RunsAfterS2(parse, st, fuel);
    RunS3(parse, st, fuel - 1);
  }

  /** S2 saves the name, and the system asks for the age (S3). */
  lemma RunS2(parse: string -> Option<int>, st: RunState<Greeter>, text: string, fuel: nat)
    requires fuel >= 1
    ensures Run(Model04, GreeterBehavior(parse), st, Message(EnterText, text), Actor(0), Step2, fuel)
      == Outcome(Entered(Entered(st, Step2).(data := st.data.(firstName := text)), Step3),
                 [Step2, Step3], None)
  {
    var d := st.data.(firstName := text);
    assert Perform(GreeterBehavior(parse), Step2, st.data, Message(EnterText, text)) == Done(d);
    SweepAfterS2(parse, Entered(st, Step2).(data := d), fuel);
    ThenDone(Model04, GreeterBehavior(parse), st, Message(EnterText, text), Actor(0), Step2, fuel, d,
      Run(Model04, GreeterBehavior(parse), st, Message(EnterText, text), Actor(0), Step2, fuel),
      Outcome(Entered(Entered(st, Step2).(data := d), Step3), [Step3], None));
  }

  /** After S1, the user's text is the name (S2), and the system asks for the age (S3). */
  lemma NameAfterS1(parse: string -> Option<int>, st: RunState<Greeter>, text: string, fuel: nat)
    requires st.latest == Some(StepRef(0)) && fuel >= 2
    ensures ReactTo(Model04, GreeterBehavior(parse), st, Message(EnterText, text), Actor(0), fuel)
      == Outcome(Entered(Entered(st, Step2).(data := st.data.(firstName := text)), Step3),
                 [Step2, Step3], None)
  {
    S2RunsAfterS1(parse, st, text, fuel);
    RunS2(parse, st, text, fuel - 1);
  }

  /** S5 greets the user, and nothing follows. */
  lemma RunS5(parse: string -> Option<int>, st: RunState<Greeter>, fuel: nat)
    ensures Run(Model04, GreeterBehavior(parse), st, RunnerMessage, Actor(1), Step5, fuel)
      == Outcome(Entered(st, Step5), [Step5], None)
  {
    SweepAfterS5(parse, Entered(st, Step5), fuel);
    ThenDone(Model04, GreeterBehavior(parse), st, RunnerMessage, Actor(1), Step5, fuel, st.data,
      Run(Model04, GreeterBehavior(parse), st, RunnerMessage, Actor(1), Step5, fuel),
      Outcome(Entered(st, Step5), [], None));
  }

  /** After S4 the system greets the user (S5), and nothing follows. */
  lemma SweepAfterS4(parse: string -> Option<int>, st: RunState<Greeter>, fuel: nat)
    requires st.latest == Some(StepRef(3)) && fuel >= 1
    ensures Sweep(Model04, GreeterBehavior(parse), st, fuel)
      == Outcome(Entered(st, Step5), [Step5], None)
  {
    S5RunsAfterS4(parse, st, fuel);
    RunS5(parse, st, fuel - 1);
  }

  /** S4 run on a numerical age: the age is saved and the user greeted (S5). */
  lemma RunS4(parse: string -> Option<int>, st: RunState<Greeter>, text: string, age: int, fuel: nat)
    requires fuel >= 1
    requires parse(text) == Some(age)
    ensures Run(Model04, GreeterBehavior(parse), st, Message(EnterText, text), Actor(0), Step4, fuel)
      == Outcome(Entered(Entered(st, Step4).(data := st.data.(age := age)), Step5), [Step4, Step5], None)
  {
    var d := st.data.(age := age);
    SweepAfterS4(parse, Entered(st, Step4).(data := d), fuel);
    ThenDone(Model04, GreeterBehavior(parse), st, Message(EnterText, text), Actor(0), Step4, fuel, d,
      Run(Model04, GreeterBehavior(parse), st, Message(EnterText, text), Actor(0), Step4, fuel),
      Outcome(Entered(Entered(st, Step4).(data := d), Step5), [Step5], None));
  }

  /** After S3, a numerical age is saved (S4) and the user greeted (S5). */
  lemma AgeAfterS3(parse: string -> Option<int>, st: RunState<Greeter>, text: string, age: int, fuel: nat)
    requires st.latest == Some(StepRef(2)) && fuel >= 2
    requires parse(text) == Some(age)
    ensures ReactTo(Model04, GreeterBehavior(parse), st, Message(EnterText, text), Actor(0), fuel)
      == Outcome(Entered(Entered(st, Step4).(data := st.data.(age := age)), Step5), [Step4, Step5], None)
  {
    S4RunsAfterS3(parse, st, text, fuel);
    RunS4(parse, st, text, age, fuel - 1);
  }

  /** No step of the model handles a NumberFormatException. */
  lemma ExceptionIsUnhandled04(text: string)
    ensures !Handles(Model04, Message(NumberFormatException, text))
  {
    var e := Message(NumberFormatException, text);
    forall j | 0 <= j < |Model04.steps|
      ensures !IsInstanceOf(e, Model04.steps[j].messageClass)
    {
      assert Model04.steps[j].messageClass == RunnerClass || Model04.steps[j].messageClass == EnterText;
    }
    HandlesIffSomeStepAccepts(Model04, e);
  }

  /** After S3, a non-numerical age makes S4 raise an exception that ends the dispatch. */
  lemma AgeNonNumericalAfterS3(parse: string -> Option<int>, st: RunState<Greeter>, text: string, fuel: nat)
    requires st.latest == Some(StepRef(2)) && fuel >= 1
    requires parse(text) == None
    ensures ReactTo(Model04, GreeterBehavior(parse), st, Message(EnterText, text), Actor(0), fuel)
      == Outcome(Entered(st, Step4), [Step4], Some(UnhandledException(Message(NumberFormatException, text))))
  {
    S4RunsAfterS3(parse, st, text, fuel);
    ExceptionIsUnhandled04(text);
    RunRaiseUnhandled(Model04, GreeterBehavior(parse), st, Message(EnterText, text), Actor(0), Step4, fuel - 1,
      st.data, Message(NumberFormatException, text));
  }

  /** The recorded run of the example's test: S1 to S5, with the name and the age saved. */
  lemma CorrectNameAndAge(parse: string -> Option<int>, fuel: nat)
    requires parse("39") == Some(39) && fuel >= 2
    ensures var o := RunAndReact(Model04, GreeterBehavior(parse), Initial, [Message(EnterText, "John"), Message(EnterText, "39")], fuel);
      o.failure == None && o.state.recorded == ["S1", "S2", "S3", "S4", "S5"] && o.state.data == Greeter("John", 39, false)
  {
    StartRunsS1(parse, fuel);
    var st1 := Entered(Initial, Step1);
    NameAfterS1(parse, st1, "John", fuel);
    var st3 := Entered(Entered(st1, Step2).(data := st1.data.(firstName := "John")), Step3);
    AgeAfterS3(parse, st3, "39", 39, fuel);
    ReactToTwo(Model04, GreeterBehavior(parse), st1, Message(EnterText, "John"), Message(EnterText, "39"), fuel);
  }

  /** A non-numerical age: the exception escapes the run after S4, and S5 never runs. */
  lemma NonNumericalAgeEscapes(parse: string -> Option<int>, fuel: nat)
    requires parse("NON-NUMERICAL-AGE") == None && fuel >= 2
    ensures var o := RunAndReact(Model04, GreeterBehavior(parse), Initial, [Message(EnterText, "John"), Message(EnterText, "NON-NUMERICAL-AGE")], fuel);
      o.failure == Some(UnhandledException(Message(NumberFormatException, "NON-NUMERICAL-AGE")))
      && o.state.recorded == ["S1", "S2", "S3", "S4"] && o.state.latest == Some(StepRef(3))
  {
    StartRunsS1(parse, fuel);
    var st1 := Entered(Initial, Step1);
    NameAfterS1(parse, st1, "John", fuel);
    var st3 := Entered(Entered(st1, Step2).(data := st1.data.(firstName := "John")), Step3);
    AgeNonNumericalAfterS3(parse, st3, "NON-NUMERICAL-AGE", fuel);
    ReactToTwo(Model04, GreeterBehavior(parse), st1, Message(EnterText, "John"), Message(EnterText, "NON-NUMERICAL-AGE"), fuel);
  }
}
