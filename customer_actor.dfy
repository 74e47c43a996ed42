/**
 * An actor with its own behavior: a model with one flowless step that only the customer actor may
 * run, reacting to entered text, in a use case run `as` the customer. The customer's runner
 * reacts to the text; a runner acting as another actor reacts to nothing.
 */
module CustomerActor {
  import opened Wrappers
  import opened Messages
  import opened ModelGraph
  import opened StepPredicates
  import opened Runner

  const Customer := Actor(2)
  const InvalidUser := Actor(3)
  const EntersText := MessageClass(["EntersText"])

  /** `.useCase(...).as(customer).step(...).user(EntersText.class).system(...)`: a flowless step, so it may run at any time. */
  const CustomerEntersText :=
    StepDef(StepRef(0), "Use case", "Customer enters text", None, [Customer], EntersText,
            AtPosition(FlowPosition(Anytime, [])), Some("displaysEnteredText"))

  const CustomerModel := Model([CustomerEntersText], Actor(0), Actor(1))

  /** The step's reaction only displays the text, and there are no conditions. */
  const Displays: Behavior<()> := Behavior((name: string, d: ()) => false, (name: string, d: (), m: Message) => Done(d))

  /** A fresh recording runner of the model, reacting on behalf of `actor`. */
  function RunnerOf(actor: Actor): RunState<()> {
    RunState(None, true, [], Some(actor), ())
  }

  /** Only the customer is named by the model's step. */
  lemma OnlyCustomerIsNamed(actor: Actor)
    requires actor != Customer
    ensures forall j :: 0 <= j < |CustomerModel.steps| ==> actor !in CustomerModel.steps[j].actors
  {
  }

  /** The customer's text is reacted to by the step, and nothing follows it. */
  lemma CustomerTextRunsStep(st: RunState<()>, text: string, fuel: nat)
    requires fuel >= 1
    ensures ReactTo(CustomerModel, Displays, st, Message(EntersText, text), Customer, fuel)
      == Outcome(Entered(st, CustomerEntersText), [CustomerEntersText], None)
  {
    var ctx := SituationOf(CustomerModel, Displays, st, Customer);
    assert Eligible(ctx, CustomerModel.steps[0], EntersText);
    SubclassIsReflexive(EntersText);
    ReactToOnlyEligible(CustomerModel, Displays, st, Message(EntersText, text), Customer, fuel, 0);
    OnlyCustomerIsNamed(Actor(1));
    ActorMismatchIsNoOp(CustomerModel, Displays, Entered(st, CustomerEntersText), RunnerMessage, Actor(1), fuel - 1);
  }

  /**
   * The run as the customer: the step runs, it is the latest step, and the class of the message
   * it reacts to is the entered text's.
   */
  lemma CustomerReacts(fuel: nat)
    requires fuel >= 1
    ensures var o := RunAndReact(CustomerModel, Displays, RunnerOf(Customer), [Message(EntersText, "Hello")], fuel);
      o.failure == None && o.ran == [CustomerEntersText] && o.state.latest == Some(StepRef(0))
      && Lookup(CustomerModel, o.state.latest.value).value.messageClass == EntersText
  {
    var st := RunnerOf(Customer);
    OnlyCustomerIsNamed(Actor(1));
    ActorMismatchIsNoOp(CustomerModel, Displays, st, RunnerMessage, Actor(1), fuel);
    CustomerTextRunsStep(st, "Hello", fuel);
    ReactToOne(CustomerModel, Displays, st, Message(EntersText, "Hello"), fuel);
  }

  /** The run as another actor than the customer: nothing runs and no step is the latest. */
  lemma OtherActorDoesNotReact(actor: Actor, fuel: nat)
    requires actor != Customer
    ensures var o := RunAndReact(CustomerModel, Displays, RunnerOf(actor), [Message(EntersText, "Hello")], fuel);
      o.failure == None && o.ran == [] && o.state.latest == None
  {
    var st := RunnerOf(actor);
    OnlyCustomerIsNamed(Actor(1));
    ActorMismatchIsNoOp(CustomerModel, Displays, st, RunnerMessage, Actor(1), fuel);
    OnlyCustomerIsNamed(actor);
    ActorMismatchIsNoOp(CustomerModel, Displays, st, Message(EntersText, "Hello"), actor, fuel);
    ReactToOne(CustomerModel, Displays, st, Message(EntersText, "Hello"), fuel);
  }

  /** The test's invalid user is such another actor. */
  lemma InvalidUserDoesNotReact(fuel: nat)
    ensures RunAndReact(CustomerModel, Displays, RunnerOf(InvalidUser), [Message(EntersText, "Hello")], fuel).state.latest == None
  {
    OtherActorDoesNotReact(InvalidUser, fuel);
  }

  /**
   * One runner, first acting as another actor, then as the customer: the other actor's text is
   * ignored, and the customer's text runs the step, which alone is recorded.
   */
  lemma OtherActorThenCustomer(actor: Actor, fuel: nat)
    requires actor != Customer && fuel >= 1
    ensures var o1 := ReactTo(CustomerModel, Displays, RunnerOf(actor), Message(EntersText, "Ignored"), actor, fuel);
      var o2 := ReactTo(CustomerModel, Displays, o1.state.(actor := Some(Customer)), Message(EntersText, "Hello"), Customer, fuel);
      o1.ran == [] && o2.failure == None && o2.state.recorded == ["Customer enters text"]
  {
    OnlyCustomerIsNamed(actor);
    OnlyCustomerIsNamed(Actor(1));
    ActorMismatchIsNoOp(CustomerModel, Displays, RunnerOf(actor), Message(EntersText, "Ignored"), actor, fuel);
    CustomerTextRunsStep(RunnerOf(actor).(actor := Some(Customer)), "Hello", fuel);
  }

  /**
   * `.step(...).on(EntersText.class).system(...)` outside a use case run `as` an actor: a flowless
   * step bound to the system actor, reacting to entered text whoever the runner acts as.
   */
  const OnEntersText :=
    StepDef(StepRef(0), "Use case", "Customer enters text", None, [Actor(1)], EntersText,
            AtPosition(FlowPosition(Anytime, [])), Some("displaysEnteredText"))

  const EventModel := Model([OnEntersText], Actor(0), Actor(1))

  /** The system event finds no step of the event model: it accepts entered text only. */
  lemma EventModelSweepIsNoOp(st: RunState<()>, fuel: nat)
    ensures Sweep(EventModel, Displays, st, fuel) == Outcome(st, [], None)
  {
    var ctx := SituationOf(EventModel, Displays, st, Actor(1));
    assert !IsSameOrSubclass(RunnerClass, EntersText);
    assert CandidatesFrom(ctx, RunnerClass, 1) == [];
    assert Candidates(ctx, RunnerClass) == [];
    NoCandidateChangesNothing(EventModel, Displays, st, RunnerMessage, Actor(1), fuel);
  }

  /**
   * The customer's runner reacts to entered text with the system actor's step: the step runs, it
   * is the latest step, and the class of the message it reacts to is the entered text's.
   */
  lemma CustomerReactsToEvent(fuel: nat)
    requires fuel >= 1
    ensures var o := RunAndReact(EventModel, Displays, RunnerOf(Customer), [Message(EntersText, "Hello")], fuel);
      o.failure == None && o.ran == [OnEntersText] && o.state.latest == Some(StepRef(0))
      && Lookup(EventModel, o.state.latest.value).value.messageClass == EntersText
  {
    var st := RunnerOf(Customer);
    var m := Message(EntersText, "Hello");
    EventModelSweepIsNoOp(st, fuel);
    SubclassIsReflexive(EntersText);
    assert Eligible(SituationOf(EventModel, Displays, st, Customer), EventModel.steps[0], EntersText);
    ReactToOnlyEligible(EventModel, Displays, st, m, Customer, fuel, 0);
    EventModelSweepIsNoOp(Entered(st, OnEntersText), fuel - 1);
    ThenDone(EventModel, Displays, st, m, Customer, OnEntersText, fuel - 1, (),
      Run(EventModel, Displays, st, m, Customer, OnEntersText, fuel - 1), Outcome(Entered(st, OnEntersText), [], None));
    ReactToOne(EventModel, Displays, st, m, fuel);
  }
}
