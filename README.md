# Step eligibility in requirements as code

This project models how a requirements-as-code model runner decides which use case step reacts
to a message, and proves properties of that decision.

A use case model is a list of steps. Each step names:

- the actors it reacts for (its `as` part);
- the message class it accepts (its `user` or `handle` part), together with all subclasses of
  that class;
- the predicate that must hold for it to react;
- its reaction (its `system` part).

A step's default predicate is its flow position and a guard. The position is "after the
previous step of the flow", or "at start" for a first step. The guard says that no other step
could react instead. Alternative flows position their first step with `InsteadOf(step)`.
`continuesAt` and `reactWhile` widen a position with "or after" disjuncts. In a react-while
loop, the step's complete condition is its own condition together with the while-condition.

The runner keeps four things:

- the latest step that ran;
- the recorded step names;
- the application data;
- the actor it runs as.

When a message arrives, the runner looks for the one step eligible for it. Only steps that name the
actor the runner acts for, or the model's system actor, can be eligible. If there is such a
step, the runner runs it:

- a completed reaction makes the system react on its own, which can run more steps;
- an exception the reaction raises is dispatched, like the message, to a step that handles it,
  and the system then reacts on its own;
- an exception that no step handles escapes.

The modules:

- `Messages` — message classes in a single-inheritance lineage, and the "same class or
  subclass" order.
- `ModelGraph` — steps, the model, and looking steps up by identity.
- `FlowPositions` — `After`, `InsteadOf`, at-start, and the "or after" extension.
- `StepPredicates` — predicates, the default predicate with its guard, and the steps that could
  react and that are eligible.
- `Runner` — the runner as a total function on its state: dispatch, continuation by the system
  actor, exception handling and recording.
- `UseCaseSteps` — the use case step object with its parts, set in place.
- `ReactWhileLoops` — the react-while condition and the loop it creates in place on a flow
  step.
- `Greeting` — the hello-world application's data and reactions.
- `HelloWorld04`, `HelloWorld05` — the two hello-world models, with the test runs proved step by
  step.
- `CustomerActor` — a use case run as one actor, and a message from another actor.

The framework's runner source is not part of this model. The runner was rebuilt from the step,
the flow positions and the doc comments of `UseCaseStep`, and each of its behaviours is pinned
down by a proved example run.

## Model

| member | source | states |
|---|---|---|
| Messages.Subclass | requirementsascodecore/src/main/java/org/requirementsascode/UseCaseStep.java:83-85 | a declared direct subclass lies below its superclass, and the superclass does not lie below it |
| Messages.IsPrefixIsSeqPrefix | requirementsascodecore/src/main/java/org/requirementsascode/UseCaseStep.java:83-85 | comparing lineages name by name is exactly the prefix order on sequences, so "subclass of" is decided correctly |
| Messages.SubclassIsReflexive | requirementsascodecore/src/main/java/org/requirementsascode/UseCaseStep.java:83-85 | a step accepts instances of the declared class itself |
| Messages.SubclassIsTransitive | requirementsascodecore/src/main/java/org/requirementsascode/UseCaseStep.java:83-85 | a step accepts instances of indirect subclasses: below a subclass of the declared class is below the declared class |
| Messages.SubclassIsAntisymmetric | requirementsascodecore/src/main/java/org/requirementsascode/UseCaseStep.java:83-85 | two classes each below the other are the same class |
| Messages.SuperclassesAreComparable | requirementsascodecore/src/main/java/org/requirementsascode/UseCaseStep.java:113-115 | two classes a message is an instance of are ordered, one below the other (single inheritance) |
| ModelGraph.LookupIsSound | requirementsascodecore/src/main/java/org/requirementsascode/flowposition/After.java:17-19 | a position names its step by identity: a found step is a step of the model with that identity, and a failed lookup means no step has it |
| ModelGraph.LookupFindsStep | requirementsascodecore/src/main/java/org/requirementsascode/flowposition/After.java:17-19 | with identities unique in the model, looking up a step of the model finds that very step |
| FlowPositions.AfterFlowStep | requirementsascodecore/src/main/java/org/requirementsascode/flowposition/After.java:21-26 | the factory yields an After position; it is the at-start position exactly when no step is given, and otherwise names exactly the given step |
| FlowPositions.AtStartIffNothingRun | requirementsascodecore/src/main/java/org/requirementsascode/flowposition/After.java:29-33 | After(no step) holds exactly when no step has run yet (two nulls are equal) |
| FlowPositions.AfterStepFalseAtStart | requirementsascodecore/src/main/java/org/requirementsascode/flowposition/After.java:30-31 | before any step has run, After(S) for a given step S is false |
| FlowPositions.InsteadOfIsAfterPrevious | requirementsascodecore/src/main/java/org/requirementsascode/flowposition/InsteadOf.java:12-17 | InsteadOf(T) holds exactly when After(previous step of T in its flow) holds, for every latest step |
| FlowPositions.InsteadOfFirstStep | requirementsascodecore/src/main/java/org/requirementsascode/flowposition/InsteadOf.java:14-23 | for a first step T of its flow, InsteadOf(T) holds exactly when no step has run yet |
| FlowPositions.OrAfter | requirementsascodecore/src/main/java/org/requirementsascode/condition/ReactWhile.java:35-36 | orAfter keeps the position's own kind and its earlier disjuncts and appends the new step at the end |
| FlowPositions.OrAfterAddsDisjunct | requirementsascodecore/src/main/java/org/requirementsascode/condition/ReactWhile.java:34-37 | the extended position holds exactly when the old position holds or the latest step run is the added step, so the old disjuncts are kept |
| StepPredicates.DefaultPredicateOfFirstStep | requirementsascodecore/src/main/java/org/requirementsascode/UseCaseStep.java:252-256 | a first step's default predicate holds exactly when nothing has run yet and no other step could react instead |
| StepPredicates.DefaultPredicateOfLaterStep | requirementsascodecore/src/main/java/org/requirementsascode/UseCaseStep.java:252-256 | a later step's default predicate holds exactly when its previous step ran last and no other step could react instead |
| StepPredicates.InsteadOfEligibleWhereReplacedStepIs | requirementsascodecore/src/main/java/org/requirementsascode/flowposition/InsteadOf.java:14-16 | wherever the replaced step's own position part holds, InsteadOf(replaced step) holds too, so the alternative flow is eligible at the same point |
| StepPredicates.PositionReadsOnlyLatest | requirementsascodecore/src/main/java/org/requirementsascode/flowposition/After.java:29-33 | a flow position depends on the model and the latest step run only, not on the actor, the conditions or the message |
| StepPredicates.GuardedStepsExcludeEachOther | requirementsascodecore/src/main/java/org/requirementsascode/UseCaseStep.java:255 | determinism: two different steps that carry their own guard are never both eligible for the same message |
| StepPredicates.RivalMakesIneligible | requirementsascodecore/src/main/java/org/requirementsascode/UseCaseStep.java:255 | the guard gives way: if another step could react to the guarded step's class, the guarded step is not eligible |
| StepPredicates.SoleCandidateReacts | requirementsascodecore/src/main/java/org/requirementsascode/UseCaseStep.java:252-256 | if exactly one step could react, guards aside, and its guards are its own, it is the one reacting step |
| StepPredicates.OnlyEligibleReacts | requirementsascodecore/src/main/java/org/requirementsascode/UseCaseStep.java:79-85 | if one step is eligible and every other candidate is not, it is the one reacting step |
| StepPredicates.ReactingStepsAreEligible | requirementsascodecore/src/main/java/org/requirementsascode/UseCaseStep.java:79-85 | the reacting steps are exactly the eligible steps of the model: each one is eligible, and none that is eligible is missing |
| StepPredicates.EligibleCouldReact | requirementsascodecore/src/main/java/org/requirementsascode/UseCaseStep.java:255 | an eligible step passes the test the guard applies to rivals (actor, class, position and conditions) |
| StepPredicates.GuardFreeCandidateIsEligible | requirementsascodecore/src/main/java/org/requirementsascode/UseCaseStep.java:57 | a step with an explicit predicate that carries no guard is eligible whenever it could react |
| StepPredicates.NoCandidateNoReaction | requirementsascodecore/src/main/java/org/requirementsascode/UseCaseStep.java:79-85 | when no step could react, no step reacts |
| Runner.NamedConditionHolds | requirementsascodeexamples/helloworld/src/main/java/helloworld/HelloWorld05.java:41 | a user condition that a step names holds in the runner exactly when the application's test says it does |
| Runner.HandlesIffSomeStepAccepts | requirementsascodecore/src/main/java/org/requirementsascode/UseCaseStep.java:108-115 | an exception is handled exactly when some step of the model accepts its class or a superclass of it |
| Runner.ReactToOne | requirementsascodeexamples/helloworld/src/test/java/helloworld/HelloWorldTest.java:69 | unfolds the definition for one message: it is reacted to on behalf of the acting actor, so the steps of that actor and of the system actor may react |
| Runner.ReactToTwo | requirementsascodeexamples/helloworld/src/test/java/helloworld/HelloWorldTest.java:69 | unfolds the definition for two messages: the first is reacted to, and then, unless it failed, the second in the state the first left |
| Runner.ThenDone | requirementsascodecore/src/main/java/org/requirementsascode/builder/FlowlessStepPart.java:55-63 | unfolds the definition for a completed reaction: the system then reacts on its own, and the step's run is that outcome with the step in front |
| Runner.ThenRaise | requirementsascodeexamples/helloworld/src/main/java/helloworld/HelloWorld05.java:44-45 | unfolds the definition for a raised exception a step handles: it is reacted to for the same actor as the message (steps of that actor or of the system actor) and, unless that failed, the system then reacts on its own; the step's run is the step followed by the steps of both |
| Runner.RunRaiseUnhandled | requirementsascodeexamples/helloworld/src/main/java/helloworld/HelloWorld04.java:48-50 | unfolds the definition for an exception no step handles: it escapes, and the dispatch ends after the raising step with that exception as its failure |
| Runner.ReactToSoleCandidate | requirementsascodecore/src/main/java/org/requirementsascode/UseCaseStep.java:252-256 | with exactly one candidate whose guards are its own, reacting runs that step |
| Runner.ReactToOnlyEligible | requirementsascodecore/src/main/java/org/requirementsascode/UseCaseStep.java:252-256 | with one eligible step among the candidates, reacting runs that step |
| Runner.NoCandidateChangesNothing | requirementsascodecore/src/main/java/org/requirementsascode/UseCaseStep.java:79-85 | without a candidate, reacting changes nothing and runs nothing |
| Runner.ActorMismatchIsNoOp | requirementsascodecore/src/main/java/org/requirementsascode/UseCaseStep.java:60-66 | a message on behalf of an actor no step names, in a model where no step names the system actor either, gets no reaction: nothing runs and the state is unchanged |
| Runner.ReactToContinues | requirementsascodeexamples/helloworld/src/test/java/helloworld/HelloWorldTest.java:134-137 | every dispatch keeps recording and the actor, appends the names of the steps that ran (when recording) and leaves the last of them as the latest step |
| Runner.RunContinues | requirementsascodeexamples/helloworld/src/test/java/helloworld/HelloWorldTest.java:134-137 | the same for one step's run and all the re-entries it triggers |
| Runner.ReactToAllContinues | requirementsascodeexamples/helloworld/src/test/java/helloworld/HelloWorldTest.java:134-137 | the same for reacting to a sequence of messages |
| Runner.RunAndReactRecords | requirementsascodeexamples/helloworld/src/test/java/helloworld/HelloWorldTest.java:134-137 | a recorded run records exactly the names of the steps that ran, in order, and ends with the last of them as the latest step |
| HelloWorld04.StepsAreNumbered04 | requirementsascodeexamples/helloworld/src/main/java/helloworld/HelloWorld04.java:22-34 | the transcribed model numbers its steps S1..S5 in order, with unique identities |
| HelloWorld04.CouldReact04S1 | requirementsascodeexamples/helloworld/src/main/java/helloworld/HelloWorld04.java:26 | S1, a system-actor step, could react whatever actor the runner acts for, to its message class and subclasses, at start |
| HelloWorld04.CouldReact04S2 | requirementsascodeexamples/helloworld/src/main/java/helloworld/HelloWorld04.java:27 | S2 could react exactly when the runner acts for the user actor, to its message class and subclasses, right after its previous step |
| HelloWorld04.CouldReact04S3 | requirementsascodeexamples/helloworld/src/main/java/helloworld/HelloWorld04.java:28 | S3, a system-actor step, could react whatever actor the runner acts for, to its message class and subclasses, right after its previous step |
| HelloWorld04.CouldReact04S4 | requirementsascodeexamples/helloworld/src/main/java/helloworld/HelloWorld04.java:29 | S4 could react exactly when the runner acts for the user actor, to its message class and subclasses, right after its previous step |
| HelloWorld04.CouldReact04S5 | requirementsascodeexamples/helloworld/src/main/java/helloworld/HelloWorld04.java:30 | S5, a system-actor step, could react whatever actor the runner acts for, to its message class and subclasses, right after its previous step |
| HelloWorld04.CandidatesAtStart | requirementsascodeexamples/helloworld/src/main/java/helloworld/HelloWorld04.java:26 | at start only S1 could react on its own |
| HelloWorld04.CandidatesAfterS1 | requirementsascodeexamples/helloworld/src/main/java/helloworld/HelloWorld04.java:27 | after S1 no step could react on its own (the system waits for the user) |
| HelloWorld04.CandidatesNameAfterS1 | requirementsascodeexamples/helloworld/src/main/java/helloworld/HelloWorld04.java:27 | after S1 only S2 could react to the user's text |
| HelloWorld04.CandidatesAfterS2 | requirementsascodeexamples/helloworld/src/main/java/helloworld/HelloWorld04.java:28 | after S2 only S3 could react on its own |
| HelloWorld04.CandidatesAfterS3 | requirementsascodeexamples/helloworld/src/main/java/helloworld/HelloWorld04.java:29 | after S3 no step could react on its own |
| HelloWorld04.CandidatesAgeAfterS3 | requirementsascodeexamples/helloworld/src/main/java/helloworld/HelloWorld04.java:29 | after S3 only S4 could react to the user's text |
| HelloWorld04.CandidatesAfterS4 | requirementsascodeexamples/helloworld/src/main/java/helloworld/HelloWorld04.java:30 | after S4 only S5 could react on its own |
| HelloWorld04.CandidatesAfterS5 | requirementsascodeexamples/helloworld/src/main/java/helloworld/HelloWorld04.java:30 | after S5 no step could react |
| HelloWorld04.S2RunsAfterS1 | requirementsascodeexamples/helloworld/src/main/java/helloworld/HelloWorld04.java:27 | after S1 the user's text is dispatched to S2 |
| HelloWorld04.S3RunsAfterS2 | requirementsascodeexamples/helloworld/src/main/java/helloworld/HelloWorld04.java:28 | after S2 the system event is dispatched to S3 |
| HelloWorld04.S4RunsAfterS3 | requirementsascodeexamples/helloworld/src/main/java/helloworld/HelloWorld04.java:29 | after S3 the user's text is dispatched to S4 |
| HelloWorld04.S5RunsAfterS4 | requirementsascodeexamples/helloworld/src/main/java/helloworld/HelloWorld04.java:30 | after S4 the system event is dispatched to S5 |
| HelloWorld04.StartRunsS1 | requirementsascodeexamples/helloworld/src/main/java/helloworld/HelloWorld04.java:26 | starting the run runs S1 and then waits |
| HelloWorld04.SweepAfterS3 | requirementsascodeexamples/helloworld/src/main/java/helloworld/HelloWorld04.java:28 | after S3 the system waits for the user |
| HelloWorld04.SweepAfterS5 | requirementsascodeexamples/helloworld/src/main/java/helloworld/HelloWorld04.java:30 | after S5 nothing more happens |
| HelloWorld04.RunS3 | requirementsascodeexamples/helloworld/src/main/java/helloworld/HelloWorld04.java:28 | running S3 asks for the age and then waits |
| HelloWorld04.SweepAfterS2 | requirementsascodeexamples/helloworld/src/main/java/helloworld/HelloWorld04.java:28 | after S2 the system runs S3 and waits |
| HelloWorld04.RunS2 | requirementsascodeexamples/helloworld/src/main/java/helloworld/HelloWorld04.java:40-42 | running S2 saves the text as the first name, then S3 runs |
| HelloWorld04.NameAfterS1 | requirementsascodeexamples/helloworld/src/main/java/helloworld/HelloWorld04.java:27-28 | after S1 the user's text is saved as the name by S2, then S3 runs |
| HelloWorld04.RunS5 | requirementsascodeexamples/helloworld/src/main/java/helloworld/HelloWorld04.java:30 | running S5 greets the user and nothing follows |
| HelloWorld04.SweepAfterS4 | requirementsascodeexamples/helloworld/src/main/java/helloworld/HelloWorld04.java:30 | after S4 the system greets the user (S5) |
| HelloWorld04.RunS4 | requirementsascodeexamples/helloworld/src/main/java/helloworld/HelloWorld04.java:48-50 | running S4 on a number saves it as the age, then S5 runs |
| HelloWorld04.AgeAfterS3 | requirementsascodeexamples/helloworld/src/main/java/helloworld/HelloWorld04.java:29-30 | after S3 a numerical age is saved by S4 and S5 greets the user |
| HelloWorld04.ExceptionIsUnhandled04 | requirementsascodeexamples/helloworld/src/main/java/helloworld/HelloWorld04.java:22-34 | no step of this model handles a NumberFormatException |
| HelloWorld04.AgeNonNumericalAfterS3 | requirementsascodeexamples/helloworld/src/main/java/helloworld/HelloWorld04.java:48-50 | after S3 a non-numerical age makes S4 raise a NumberFormatException that escapes the dispatch |
| HelloWorld04.CorrectNameAndAge | requirementsascodeexamples/helloworld/src/test/java/helloworld/HelloWorldTest.java:64-72 | the test run with "John" and "39" records exactly S1, S2, S3, S4, S5, without failure, and the name and age are saved |
| HelloWorld04.NonNumericalAgeEscapes | requirementsascodeexamples/helloworld/src/main/java/helloworld/HelloWorld04.java:48-50 | with a non-numerical age the run ends with the unhandled NumberFormatException after S4: S1..S4 are recorded and S5 never runs |
| HelloWorld05.StepsAreNumbered05 | requirementsascodeexamples/helloworld/src/main/java/helloworld/HelloWorld05.java:31-50 | the transcribed model numbers its steps S1..S5b_2 in order, with unique identities |
| HelloWorld05.Holding05 | requirementsascodeexamples/helloworld/src/main/java/helloworld/HelloWorld05.java:72-74 | the out-of-bounds condition holds exactly when the age is below 5 or above 130 |
| HelloWorld05.CouldReact05S1 | requirementsascodeexamples/helloworld/src/main/java/helloworld/HelloWorld05.java:35 | S1, a system-actor step, could react whatever actor the runner acts for, to its message class and subclasses, at start |
| HelloWorld05.CouldReact05S2 | requirementsascodeexamples/helloworld/src/main/java/helloworld/HelloWorld05.java:36 | S2 could react exactly when the runner acts for the user actor, to its message class and subclasses, right after S1 |
| HelloWorld05.CouldReact05S3 | requirementsascodeexamples/helloworld/src/main/java/helloworld/HelloWorld05.java:37 | S3, a system-actor step, could react whatever actor the runner acts for, to its message class and subclasses, right after S2, S5a_2 or S5b_2 (the two continuesAt("S3")) |
| HelloWorld05.CouldReact05S4 | requirementsascodeexamples/helloworld/src/main/java/helloworld/HelloWorld05.java:38 | S4 could react exactly when the runner acts for the user actor, to its message class and subclasses, right after S3 |
| HelloWorld05.CouldReact05S5 | requirementsascodeexamples/helloworld/src/main/java/helloworld/HelloWorld05.java:39 | S5, a system-actor step, could react whatever actor the runner acts for, to its message class and subclasses, right after S4 |
| HelloWorld05.CouldReact05S6 | requirementsascodeexamples/helloworld/src/main/java/helloworld/HelloWorld05.java:40 | S6, a system-actor step, could react whatever actor the runner acts for, to its message class and subclasses, right after S5 |
| HelloWorld05.CouldReact05S5a_1 | requirementsascodeexamples/helloworld/src/main/java/helloworld/HelloWorld05.java:41-42 | S5a_1, a system-actor step, could react whatever actor the runner acts for, to its message class and subclasses, instead of S5, that is right after S4, when the age is out of bounds |
| HelloWorld05.CouldReact05S5a_2 | requirementsascodeexamples/helloworld/src/main/java/helloworld/HelloWorld05.java:43 | S5a_2, a system-actor step, could react whatever actor the runner acts for, to its message class and subclasses, right after S5a_1 |
| HelloWorld05.CouldReact05S5b_1 | requirementsascodeexamples/helloworld/src/main/java/helloworld/HelloWorld05.java:44-45 | S5b_1, a system-actor step, could react whatever actor the runner acts for, to its message class and subclasses, instead of S5, that is right after S4, for NumberFormatException and its subclasses |
| HelloWorld05.CouldReact05S5b_2 | requirementsascodeexamples/helloworld/src/main/java/helloworld/HelloWorld05.java:46 | S5b_2, a system-actor step, could react whatever actor the runner acts for, to its message class and subclasses, right after S5b_1 |
| HelloWorld05.CandidatesAtStart | requirementsascodeexamples/helloworld/src/main/java/helloworld/HelloWorld05.java:35 | at start only S1 could react on its own |
| HelloWorld05.CandidatesAfterS1 | requirementsascodeexamples/helloworld/src/main/java/helloworld/HelloWorld05.java:36 | after S1 no step could react on its own |
| HelloWorld05.CandidatesNameAfterS1 | requirementsascodeexamples/helloworld/src/main/java/helloworld/HelloWorld05.java:36 | after S1 only S2 could react to the user's text |
| HelloWorld05.CandidatesAfterS2 | requirementsascodeexamples/helloworld/src/main/java/helloworld/HelloWorld05.java:37 | after S2 only S3 could react on its own |
| HelloWorld05.CandidatesAfterS3 | requirementsascodeexamples/helloworld/src/main/java/helloworld/HelloWorld05.java:38 | after S3 no step could react on its own |
| HelloWorld05.CandidatesAgeAfterS3 | requirementsascodeexamples/helloworld/src/main/java/helloworld/HelloWorld05.java:38 | after S3 only S4 could react to the user's text |
| HelloWorld05.CandidatesAfterS4InBounds | requirementsascodeexamples/helloworld/src/main/java/helloworld/HelloWorld05.java:39 | after S4 with the age in bounds only S5 could react on its own |
| HelloWorld05.CandidatesAfterS5 | requirementsascodeexamples/helloworld/src/main/java/helloworld/HelloWorld05.java:40 | after S5 only S6 could react |
| HelloWorld05.CandidatesAfterS6 | requirementsascodeexamples/helloworld/src/main/java/helloworld/HelloWorld05.java:40 | after S6 no step could react |
| HelloWorld05.CandidatesAfterS4OutOfBounds | requirementsascodeexamples/helloworld/src/main/java/helloworld/HelloWorld05.java:39-42 | after S4 with the age out of bounds both S5 and S5a_1 could react |
| HelloWorld05.CandidatesAfterS5a1 | requirementsascodeexamples/helloworld/src/main/java/helloworld/HelloWorld05.java:43 | after S5a_1 only S5a_2 could react |
| HelloWorld05.CandidatesAfterS5a2 | requirementsascodeexamples/helloworld/src/main/java/helloworld/HelloWorld05.java:43 | after S5a_2 only S3 could react (the flow continues at S3) |
| HelloWorld05.CandidatesExceptionAfterS4 | requirementsascodeexamples/helloworld/src/main/java/helloworld/HelloWorld05.java:44-45 | after S4 only S5b_1 could react to a NumberFormatException |
| HelloWorld05.CandidatesAfterS5b1 | requirementsascodeexamples/helloworld/src/main/java/helloworld/HelloWorld05.java:46 | after S5b_1 only S5b_2 could react |
| HelloWorld05.CandidatesAfterS5b2 | requirementsascodeexamples/helloworld/src/main/java/helloworld/HelloWorld05.java:46 | after S5b_2 only S3 could react (the flow continues at S3) |
| HelloWorld05.S2RunsAfterS1 | requirementsascodeexamples/helloworld/src/main/java/helloworld/HelloWorld05.java:36 | after S1 the user's text is dispatched to S2 |
| HelloWorld05.S3RunsAfterS2 | requirementsascodeexamples/helloworld/src/main/java/helloworld/HelloWorld05.java:37 | after S2 the system event is dispatched to S3 |
| HelloWorld05.S4RunsAfterS3 | requirementsascodeexamples/helloworld/src/main/java/helloworld/HelloWorld05.java:38 | after S3 the user's text is dispatched to S4 |
| HelloWorld05.S5RunsAfterS4 | requirementsascodeexamples/helloworld/src/main/java/helloworld/HelloWorld05.java:39 | after S4 with the age in bounds the system event is dispatched to S5 |
| HelloWorld05.S6RunsAfterS5 | requirementsascodeexamples/helloworld/src/main/java/helloworld/HelloWorld05.java:40 | after S5 the system event is dispatched to S6 |
| HelloWorld05.S5a2RunsAfterS5a1 | requirementsascodeexamples/helloworld/src/main/java/helloworld/HelloWorld05.java:43 | after S5a_1 the system event is dispatched to S5a_2 |
| HelloWorld05.S3RunsAfterS5a2 | requirementsascodeexamples/helloworld/src/main/java/helloworld/HelloWorld05.java:43 | after S5a_2 the system event is dispatched to S3 again |
| HelloWorld05.S5b1RunsOnException | requirementsascodeexamples/helloworld/src/main/java/helloworld/HelloWorld05.java:44-45 | after S4 a NumberFormatException is dispatched to S5b_1 |
| HelloWorld05.S5b2RunsAfterS5b1 | requirementsascodeexamples/helloworld/src/main/java/helloworld/HelloWorld05.java:46 | after S5b_1 the system event is dispatched to S5b_2 |
| HelloWorld05.S3RunsAfterS5b2 | requirementsascodeexamples/helloworld/src/main/java/helloworld/HelloWorld05.java:46 | after S5b_2 the system event is dispatched to S3 again |
| HelloWorld05.OnlyS5a1EligibleAfterS4 | requirementsascodeexamples/helloworld/src/main/java/helloworld/HelloWorld05.java:39-42 | after S4 with the age out of bounds S5a_1 is eligible and S5 is not: its guard gives way to the alternative flow |
| HelloWorld05.S5a1RunsInsteadOfS5 | requirementsascodeexamples/helloworld/src/main/java/helloworld/HelloWorld05.java:41-42 | after S4 with the age out of bounds the system event is dispatched to S5a_1 instead of S5 |
| HelloWorld05.StartRunsS1 | requirementsascodeexamples/helloworld/src/main/java/helloworld/HelloWorld05.java:35 | starting the run runs S1 and then waits |
| HelloWorld05.SweepAfterS3 | requirementsascodeexamples/helloworld/src/main/java/helloworld/HelloWorld05.java:37 | after S3 the system waits for the user |
| HelloWorld05.SweepAfterS6 | requirementsascodeexamples/helloworld/src/main/java/helloworld/HelloWorld05.java:40 | after S6 nothing more happens |
| HelloWorld05.RunS3 | requirementsascodeexamples/helloworld/src/main/java/helloworld/HelloWorld05.java:37 | running S3 asks for the age and then waits |
| HelloWorld05.SweepAfterS2 | requirementsascodeexamples/helloworld/src/main/java/helloworld/HelloWorld05.java:37 | after S2 the system runs S3 and waits |
| HelloWorld05.S2SavesName | requirementsascodeexamples/helloworld/src/main/java/helloworld/HelloWorld05.java:56-58 | S2's reaction saves the entered text as the first name |
| HelloWorld05.RunS2 | requirementsascodeexamples/helloworld/src/main/java/helloworld/HelloWorld05.java:56-58 | running S2 saves the name, then S3 runs |
| HelloWorld05.NameAfterS1 | requirementsascodeexamples/helloworld/src/main/java/helloworld/HelloWorld05.java:36-37 | after S1 the user's text is saved as the name by S2, then S3 runs |
| HelloWorld05.RunS6 | requirementsascodeexamples/helloworld/src/main/java/helloworld/HelloWorld05.java:40 | running S6 stops the system and nothing follows |
| HelloWorld05.SweepAfterS5 | requirementsascodeexamples/helloworld/src/main/java/helloworld/HelloWorld05.java:40 | after S5 the system stops (S6) |
| HelloWorld05.RunS5 | requirementsascodeexamples/helloworld/src/main/java/helloworld/HelloWorld05.java:39-40 | running S5 greets the user, then S6 stops |
| HelloWorld05.SweepAfterS4InBounds | requirementsascodeexamples/helloworld/src/main/java/helloworld/HelloWorld05.java:39-40 | after S4 with the age in bounds S5 and S6 run |
| HelloWorld05.RunS5a2 | requirementsascodeexamples/helloworld/src/main/java/helloworld/HelloWorld05.java:43 | running S5a_2 continues the flow at S3 |
| HelloWorld05.SweepAfterS5a2 | requirementsascodeexamples/helloworld/src/main/java/helloworld/HelloWorld05.java:43 | after S5a_2 S3 runs again and the system waits |
| HelloWorld05.SweepAfterS5a1 | requirementsascodeexamples/helloworld/src/main/java/helloworld/HelloWorld05.java:43 | after S5a_1 S5a_2 and S3 run |
| HelloWorld05.RunS5b2 | requirementsascodeexamples/helloworld/src/main/java/helloworld/HelloWorld05.java:46 | running S5b_2 continues the flow at S3 |
| HelloWorld05.SweepAfterS5b2 | requirementsascodeexamples/helloworld/src/main/java/helloworld/HelloWorld05.java:46 | after S5b_2 S3 runs again and the system waits |
| HelloWorld05.SweepAfterS5b1 | requirementsascodeexamples/helloworld/src/main/java/helloworld/HelloWorld05.java:46 | after S5b_1 S5b_2 and S3 run |
| HelloWorld05.RunS5a1 | requirementsascodeexamples/helloworld/src/main/java/helloworld/HelloWorld05.java:41-43 | running S5a_1 is followed by S5a_2 and S3 |
| HelloWorld05.SweepAfterS4OutOfBounds | requirementsascodeexamples/helloworld/src/main/java/helloworld/HelloWorld05.java:41-43 | after S4 with the age out of bounds S5a_1 runs instead of S5, then S5a_2 and S3 |
| HelloWorld05.RunS5b1 | requirementsascodeexamples/helloworld/src/main/java/helloworld/HelloWorld05.java:44-46 | running S5b_1 on the exception is followed by S5b_2 and S3 |
| HelloWorld05.ExceptionAfterS4 | requirementsascodeexamples/helloworld/src/main/java/helloworld/HelloWorld05.java:44-46 | a NumberFormatException after S4 goes to S5b_1, then S5b_2 and S3 run |
| HelloWorld05.S4SavesAge | requirementsascodeexamples/helloworld/src/main/java/helloworld/HelloWorld05.java:64-66 | S4's reaction saves a numerical age |
| HelloWorld05.S4RaisesOnNonNumerical | requirementsascodeexamples/helloworld/src/main/java/helloworld/HelloWorld05.java:64-66 | S4's reaction raises a NumberFormatException when the text is not a number |
| HelloWorld05.RunS4InBounds | requirementsascodeexamples/helloworld/src/main/java/helloworld/HelloWorld05.java:38-40 | running S4 on an age in bounds saves it, then S5 and S6 run |
| HelloWorld05.AgeInBoundsAfterS3 | requirementsascodeexamples/helloworld/src/main/java/helloworld/HelloWorld05.java:38-40 | after S3 an age in bounds is saved by S4, S5 greets and S6 stops |
| HelloWorld05.RunS4OutOfBounds | requirementsascodeexamples/helloworld/src/main/java/helloworld/HelloWorld05.java:41-43 | running S4 on an out-of-bounds age saves it, then S5a_1, S5a_2 and S3 run |
| HelloWorld05.AgeOutOfBoundsAfterS3 | requirementsascodeexamples/helloworld/src/main/java/helloworld/HelloWorld05.java:41-43 | after S3 an out-of-bounds age is saved by S4, and the flow goes through S5a_1 and S5a_2 back to S3 |
| HelloWorld05.ExceptionIsHandled05 | requirementsascodeexamples/helloworld/src/main/java/helloworld/HelloWorld05.java:44-45 | S5b_1 handles the NumberFormatException that S4 raises |
| HelloWorld05.RunS4NonNumerical | requirementsascodeexamples/helloworld/src/main/java/helloworld/HelloWorld05.java:44-46 | running S4 on a non-numerical text raises, S5b_1, S5b_2 and S3 follow, and the system then waits |
| HelloWorld05.AgeNonNumericalAfterS3 | requirementsascodeexamples/helloworld/src/main/java/helloworld/HelloWorld05.java:44-46 | after S3 a non-numerical age makes S4 raise, and the flow goes through S5b_1 and S5b_2 back to S3 |
| HelloWorld05.CorrectNameAndAge | requirementsascodeexamples/helloworld/src/test/java/helloworld/HelloWorldTest.java:74-82 | the run with "John" and "39" records exactly S1..S6 without failure, with the name and age saved and the system stopped |
| HelloWorld05.OutOfBoundsAge | requirementsascodeexamples/helloworld/src/test/java/helloworld/HelloWorldTest.java:84-92 | the run with "John" and "1000" records exactly S1, S2, S3, S4, S5a_1, S5a_2, S3 without failure, and ends at S3 |
| HelloWorld05.NonNumericalAge | requirementsascodeexamples/helloworld/src/test/java/helloworld/HelloWorldTest.java:94-102 | the run with "John" and "NON-NUMERICAL-AGE" records exactly S1, S2, S3, S4, S5b_1, S5b_2, S3 without failure, and ends at S3 |
| CustomerActor.OnlyCustomerIsNamed | requirementsascodecore/src/test/java/org/requirementsascode/ActorWithBehaviorTest.java:57-58 | the use case run as the customer names no other actor on its step |
| CustomerActor.CustomerTextRunsStep | requirementsascodecore/src/test/java/org/requirementsascode/ActorWithBehaviorTest.java:55-65 | the customer's text is reacted to by the step, and nothing follows it |
| CustomerActor.CustomerReacts | requirementsascodecore/src/test/java/org/requirementsascode/ActorWithBehaviorTest.java:55-65 | running as the customer, the text runs the step, which becomes the latest step, and its message class is the text's class |
| CustomerActor.OtherActorDoesNotReact | requirementsascodecore/src/test/java/org/requirementsascode/ActorWithBehaviorTest.java:67-79 | running as any other actor, nothing runs and no step is the latest |
| CustomerActor.InvalidUserDoesNotReact | requirementsascodecore/src/test/java/org/requirementsascode/ActorWithBehaviorTest.java:67-79 | running as the invalid user, no step is the latest |
| CustomerActor.EventModelSweepIsNoOp | requirementsascodecore/src/test/java/org/requirementsascode/ActorWithBehaviorTest.java:28-30 | the system event finds no step in a model whose one step accepts entered text only |
| CustomerActor.CustomerReactsToEvent | requirementsascodecore/src/test/java/org/requirementsascode/ActorWithBehaviorTest.java:26-37 | a step bound with on(EntersText) to the system actor reacts to the customer's entered text: it runs, becomes the latest step, and its message class is the text's class |
| CustomerActor.OtherActorThenCustomer | requirementsascodeexamples/helloworld/src/test/java/helloworld/HelloWorldTest.java:51-62 | one runner: the text of an actor not in the model is ignored, and the valid actor's later text runs the step, which alone is recorded |
| UseCaseSteps.UseCaseStep.constructor | requirementsascodecore/src/main/java/org/requirementsascode/UseCaseStep.java:49-58 | the name, use case and previous step are fixed; an explicit predicate replaces the default entirely, and without one the step gets the default predicate |
| UseCaseSteps.UseCaseStep.As | requirementsascodecore/src/main/java/org/requirementsascode/UseCaseStep.java:72-77 | as(actors) replaces the as part with those actors |
| UseCaseSteps.UseCaseStep.User | requirementsascodecore/src/main/java/org/requirementsascode/UseCaseStep.java:99-106 | user(cls) binds the step to the model's default user actor: it could then react exactly when the runner acts for that actor (or that actor is the runner's system actor), to cls and its subclasses, where its predicate holds |
| UseCaseSteps.UseCaseStep.Handle | requirementsascodecore/src/main/java/org/requirementsascode/UseCaseStep.java:129-136 | handle(cls) binds the step to the model's default system actor: it could then react when the runner acts for that actor or that actor is the model's system actor, and so, in a model whose system actor it is, whatever actor the runner acts for, to cls and its subclasses, where its predicate holds |
| UseCaseSteps.UseCaseStep.SetAs | requirementsascodecore/src/main/java/org/requirementsascode/UseCaseStep.java:181-183 | the setter overwrites the as part and nothing else |
| UseCaseSteps.UseCaseStep.SetUser | requirementsascodecore/src/main/java/org/requirementsascode/UseCaseStep.java:201-203 | the setter overwrites the user part and nothing else |
| UseCaseSteps.UseCaseStep.SetSystem | requirementsascodecore/src/main/java/org/requirementsascode/UseCaseStep.java:221-223 | the setter overwrites the system part and nothing else |
| UseCaseSteps.UseCaseStep.SetPredicate | requirementsascodecore/src/main/java/org/requirementsascode/UseCaseStep.java:241-243 | the setter overwrites the predicate and nothing else |
| UseCaseSteps.BuildUserStep | requirementsascodecore/src/main/java/org/requirementsascode/UseCaseStep.java:99-106 | a step built with user(cls) and a reaction is, to the runner, a step of the default user actor accepting cls, with the default predicate after its previous step |
| ReactWhileLoops.ReactWhile.constructor | requirementsascodecore/src/main/java/org/requirementsascode/condition/ReactWhile.java:17-32 | the while-condition is kept; the step's flow position gains, in place, "or after this step", and then holds exactly where it held before or right after the step ran; its flow condition is unchanged |
| ReactWhileLoops.ReactWhile.CreateLoop | requirementsascodecore/src/main/java/org/requirementsascode/condition/ReactWhile.java:34-37 | createLoop extends the step's own flow position with "or after this step" and changes nothing else |
| ReactWhileLoops.ReactWhile.Test | requirementsascodecore/src/main/java/org/requirementsascode/condition/ReactWhile.java:24-29 | the complete condition holds exactly when the step's (looped) position holds, its flow condition holds if it has one, and the while-condition holds |
| ReactWhileLoops.WhileConditionFalseBlocks | requirementsascodecore/src/main/java/org/requirementsascode/condition/ReactWhile.java:29 | a step whose predicate ends in a false while-condition is not eligible, whatever its own condition says |
| ReactWhileLoops.LoopReentersAfterItself | requirementsascodecore/src/main/java/org/requirementsascode/condition/ReactWhile.java:34-37 | right after the step of a react-while loop ran, the model step carrying the complete condition could react again exactly when the step's own flow condition (if any) and the while-condition hold |

## Left out

- The source of `ModelRunner`, `Step`, `FlowStep`, `FlowPosition`, `UseCaseStepAs` and `UseCaseStepPredicate` is not part of this model. `Runner`, the `FlowStep` class of `ReactWhileLoops`, the `FlowPosition` datatype and the determinism guard are rebuilt from how the step, flow-position and react-while code use them and from the documented behaviour, not transcribed. The example runs pin them down.
- StepPredicates.NoOtherStepFrom: the guard `noOtherStepCouldReactThan(step)` is a reconstruction, because its body is not part of this model. It counts as a rival any other step of the model that names the current actor or the model's system actor, and whose message class equals the guarded step's class or lies above it, and whose predicate holds. In a rival's predicate, its own determinism guard is counted as satisfied (`EvalGuardsAside`), so the guards do not refer to each other.
- Unbounded re-entry: the system's own reactions are followed for at most `fuel` dispatches, and `DepthExceeded` marks a run that needs more. Every proved scenario finishes within its bound.
- When two or more steps are eligible at once, the dispatch ends with `AmbiguousReaction` instead of an exception thrown to the caller.
- Messages published to another actor, and custom handling installed with `handleWith`, are left out. The `Publish` effect exists, but no example uses it.
- The model builder classes (`FlowlessStepPart`, `FlowPart`, ...) are not modelled as objects. `UseCaseSteps.BuildUserStep` stands in for one basic-flow step. Flowless steps get the `Anytime` position. `continuesAt("S3")` is written as an "or after" disjunct on S3's position.
- Console input and output and `System.exit` are left out. Parsing the age is a parameter of the reactions. The scenarios assume that it turns "39" into 39 and "1000" into 1000 and rejects "NON-NUMERICAL-AGE".
- Steps are identified by a numeric identity instead of by name and use case. `InsteadOf` of a step that is not in the model never holds.
- Null arguments (`Objects.requireNonNull` in `ReactWhile`) cannot occur, because Dafny's reference types are non-null. `Serializable` is left out.
- `HelloWorld01`, `HelloWorld02`, `HelloWorld03a` and `HelloWorld06` are not part of this model. `CustomerActor.OtherActorThenCustomer` proves the actor-filtering property that the `HelloWorld03a` test relies on, but on a one-step model. That model has one flowless step and records only that step. It does not have the test's two steps, a system step S1 that runs on start followed by a user step S2.
- The behaviour of an actor that has no model of its own is left out.
- Runner.Sweep: the system's own reactions, to the runner itself, are dispatched for the system actor. Steps that name the system actor react to them. A step bound to another actor on the runner class would not react on its own. The flowless `system(..)` builder, which is `user(ModelRunner.class)`, binds a step that way. The choice between the system actor and the acting actor lies in `ModelRunner`, which is not part of this model.
- ReactWhileLoops.ReactWhile.GetReactWhileCondition: a plain getter with no contract of its own. It returns a constant field, which the constructor's contract states.
- Messages.SuperclassesAreComparable: message classes form a single-inheritance tree. Interface types, which `user(Class)` and `handle(Class)` also accept, are not modelled. With interfaces, a message class can implement two unrelated interfaces, and two guarded steps declaring them would both be eligible. So `StepPredicates.GuardedStepsExcludeEachOther` (determinism) relies on single inheritance.
- ReactWhileLoops.ReactWhile.CompleteCondition: the step's condition is read from the live step object when the complete condition is evaluated. So a later change to the step's position is seen, as it is through the shared position object in the source. Aliasing between several steps is not modelled.
- `InsteadOf` builds its `After` with the arguments in the order (use case, step name), while `After` declares them as (step name, use case). The model only keeps the identity of the step, so the order has no effect here.
