/**
 * The application side shared by the HelloWorld04 and HelloWorld05 examples: the example's
 * fields, its one user condition and its reactions. Console output is left aside, so the
 * reactions that only print leave the fields as they are. Integer parsing is a parameter: it
 * yields no number exactly where Integer.parseInt throws a NumberFormatException.
 */
module Greeting {
  import opened Wrappers
  import opened Messages
  import opened ModelGraph
  import opened StepPredicates
  import opened Runner

  const EnterText := MessageClass(["EnterText"])
  const NumberFormatException :=
    MessageClass(["Throwable", "Exception", "RuntimeException", "IllegalArgumentException", "NumberFormatException"])

  /** A basic-flow step `.step(name).system(reaction)` of the use case "Get greeted": the system reacts on its own. */
  function SystemStep(ref: StepRef, name: string, previous: Option<StepRef>, reaction: Option<string>): StepDef {
    StepDef(ref, "Get greeted", name, previous, [Actor(1)], RunnerClass, DefaultPredicate(ref, previous), reaction)
  }

  /** A basic-flow step `.step(name).user(EnterText.class).system(reaction)` of the use case "Get greeted". */
  function UserStep(ref: StepRef, name: string, previous: StepRef, reaction: string): StepDef {
    StepDef(ref, "Get greeted", name, Some(previous), [Actor(0)], EnterText, DefaultPredicate(ref, Some(previous)), Some(reaction))
  }

  /** The example's fields. */
  datatype Greeter = Greeter(firstName: string, age: int, stopped: bool)

  const MinAge := 5
  const MaxAge := 130

  predicate AgeIsOutOfBounds(d: Greeter) {
    d.age < MinAge || d.age > MaxAge
  }

  /** The reactions by name: saving the name, saving the parsed age, stopping. */
  function PerformGreeter(parse: string -> Option<int>, name: string, d: Greeter, m: Message): Effect<Greeter> {
    if name == "savesName" then Done(d.(firstName := m.text))
    else if name == "savesAge" then
      match parse(m.text)
      case Some(age) => Done(d.(age := age))
      case None => Raise(d, Message(NumberFormatException, m.text))
    else if name == "stops" then Done(d.(stopped := true))
    else Done(d)
  }

  function GreeterBehavior(parse: string -> Option<int>): Behavior<Greeter> {
    Behavior((name: string, d: Greeter) => name == "ageIsOutOfBounds" && AgeIsOutOfBounds(d),
             (name: string, d: Greeter, m: Message) => PerformGreeter(parse, name, d, m))
  }

  /** A fresh runner with recording on, and the example's fields as Java initialises them. */
  const Initial := RunState(None, true, [], None, Greeter("", 0, false))
}
