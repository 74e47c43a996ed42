/**
 * An abstract runner: the dispatch of one message to the unique eligible step, the execution of
 * its reaction, and the re-entries that follow it (published messages, exceptions handed to an
 * exception-handling step, and the sweep for autonomous system steps).
 *
 * The application's own data `D`, its conditions and its reactions are uninterpreted: a
 * `Behavior` gives the truth of each named condition and the effect of each named reaction.
 */
module Runner {
  import opened Wrappers
  import opened Messages
  import opened ModelGraph
  import opened StepPredicates

  /** What a reaction does: it completes, it publishes a message, or it raises an exception. */
  datatype Effect<D> =
    | Done(data: D)
    | Publish(data: D, message: Message)
    | Raise(data: D, exception: Message)

  datatype Behavior<!D> = Behavior(test: (string, D) -> bool, perform: (string, D, Message) -> Effect<D>)

  /**
   * The runner's state: the latest step run (absent when none has run), whether recording is on,
   * the recorded step names, the actor set with `as` (absent: the model's user actor), the
   * application data.
   */
  datatype RunState<D> = RunState(
    latest: Option<StepRef>,
    recording: bool,
    recorded: seq<string>,
    actor: Option<Actor>,
    data: D)

  /**
   * Why a dispatch ended early: more than one step could react, a raised exception that no step
   * handles escaped, or the depth bound was reached.
   */
  datatype Failure =
    | AmbiguousReaction(steps: seq<StepDef>)
    | UnhandledException(exception: Message)
    | DepthExceeded

  /** The state after a dispatch, the steps that ran in order, and the failure that ended it, if any. */
  datatype Outcome<D> = Outcome(state: RunState<D>, ran: seq<StepDef>, failure: Option<Failure>)

  /** The names of the user conditions that occur in `p`. */
  function PredicateConditions(p: Predicate): set<string> {
    match p
    case Condition(name) => {name}
    case And(l, r) => PredicateConditions(l) + PredicateConditions(r)
    case _ => {}
  }

  function ConditionNamesFrom(steps: seq<StepDef>, i: nat): set<string>
    requires i <= |steps|
    decreases |steps| - i
  {
    if i == |steps| then {} else PredicateConditions(steps[i].stepPredicate) + ConditionNamesFrom(steps, i + 1)
  }

  /** The conditions of the model that hold for the application data `data`. */
  function Holding<D>(model: Model, test: (string, D) -> bool, data: D): set<string> {
    set n | n in ConditionNamesFrom(model.steps, 0) && test(n, data)
  }

  /** A condition some step of the model names holds exactly when the application's test says so. */
  lemma NamedConditionHolds<D>(model: Model, test: (string, D) -> bool, data: D, k: nat, name: string)
    requires k < |model.steps| && name in PredicateConditions(model.steps[k].stepPredicate)
    ensures name in Holding(model, test, data) <==> test(name, data)
  {
    ConditionNamesFromHas(model.steps, 0, k, name);
  }

  lemma {:induction false} ConditionNamesFromHas(steps: seq<StepDef>, i: nat, k: nat, name: string)
    requires i <= k < |steps| && name in PredicateConditions(steps[k].stepPredicate)
    ensures name in ConditionNamesFrom(steps, i)
    decreases k - i
  {
    if i < k {
      ConditionNamesFromHas(steps, i + 1, k, name);
    }
  }

  function SituationOf<D>(model: Model, b: Behavior<D>, st: RunState<D>, actor: Actor): Situation {
    Situation(model, st.latest, actor, Holding(model, b.test, st.data))
  }

  /** The names of the steps, in order. */
  function Names(steps: seq<StepDef>): seq<string> {
    if steps == [] then [] else [steps[0].name] + Names(steps[1..])
  }

  /** Some step of the model accepts messages of the exception's class. */
  predicate Handles(model: Model, e: Message) {
    HandlesFrom(model.steps, e, 0)
  }

  predicate HandlesFrom(steps: seq<StepDef>, e: Message, i: nat)
    requires i <= |steps|
    decreases |steps| - i
  {
    i < |steps| && (IsInstanceOf(e, steps[i].messageClass) || HandlesFrom(steps, e, i + 1))
  }

  /** An exception is handled exactly when some step of the model accepts its class. */
  lemma HandlesIffSomeStepAccepts(model: Model, e: Message)
    ensures Handles(model, e) <==> exists j :: 0 <= j < |model.steps| && IsInstanceOf(e, model.steps[j].messageClass)
  {
    HandlesFromIff(model.steps, e, 0);
  }

  lemma {:induction false} HandlesFromIff(steps: seq<StepDef>, e: Message, i: nat)
    requires i <= |steps|
    ensures HandlesFrom(steps, e, i) <==> exists j :: i <= j < |steps| && IsInstanceOf(e, steps[j].messageClass)
    decreases |steps| - i
  {
    if i < |steps| {
      HandlesFromIff(steps, e, i + 1);
      if IsInstanceOf(e, steps[i].messageClass) {
        assert i <= i < |steps|;
      }
    }
  }

  /** The state just after step `r` starts reacting: it is the latest step, and recorded if recording. */
  function Entered<D>(st: RunState<D>, s: StepDef): RunState<D> {
    st.(latest := Some(s.ref), recorded := if st.recording then st.recorded + [s.name] else st.recorded)
  }

  function Perform<D>(b: Behavior<D>, s: StepDef, data: D, m: Message): Effect<D> {
    match s.reaction
    case Some(name) => b.perform(name, data, m)
    case None => Done(data)
  }

  function Prepend<D>(s: StepDef, o: Outcome<D>): Outcome<D> {
    o.(ran := [s] + o.ran)
  }

  /**
   * Reacts to message `m` on behalf of `actor`: nothing happens without an eligible step, the
   * dispatch fails when several steps are eligible, and otherwise the eligible step runs. `fuel`
   * bounds the depth of the re-entries; an eligible step met with no fuel left ends the dispatch
   * with DepthExceeded.
   */
  function ReactTo<D>(model: Model, b: Behavior<D>, st: RunState<D>, m: Message, actor: Actor, fuel: nat): Outcome<D>
    decreases fuel, 1
  {
    var candidates := ReactingSteps(SituationOf(model, b, st, actor), m.cls);
    if |candidates| == 0 then Outcome(st, [], None)
    else if |candidates| > 1 then Outcome(st, [], Some(AmbiguousReaction(candidates)))
    else if fuel == 0 then Outcome(st, [], Some(DepthExceeded))
    else Run(model, b, st, m, actor, candidates[0], fuel - 1)
  }

  /**
   * Step `s` reacts to `m`: it becomes the latest step (and is recorded), its reaction runs, a
   * published message is reacted to in turn, a raised exception is reacted to in the same way as
   * a message when a step handles its class (and otherwise ends the dispatch), and the system then
   * reacts on its own as long as it can.
   */
  function Run<D>(model: Model, b: Behavior<D>, st: RunState<D>, m: Message, actor: Actor, s: StepDef, fuel: nat): Outcome<D>
    decreases fuel, 3
  {
    var entered := Entered(st, s);
    match Perform(b, s, entered.data, m)
    case Done(d) =>
      Prepend(s, Sweep(model, b, entered.(data := d), fuel))
    case Publish(d, published) =>
      var o := ReactTo(model, b, entered.(data := d), published, actor, fuel);
      if o.failure.Some? then Prepend(s, o)
      else
        var o' := Sweep(model, b, o.state, fuel);
        Outcome(o'.state, [s] + o.ran + o'.ran, o'.failure)
    case Raise(d, e) =>
      if Handles(model, e) then
        var o := ReactTo(model, b, entered.(data := d), e, actor, fuel);
        if o.failure.Some? then Prepend(s, o)
        else
          var o' := Sweep(model, b, o.state, fuel);
          Outcome(o'.state, [s] + o.ran + o'.ran, o'.failure)
      else Outcome(entered.(data := d), [s], Some(UnhandledException(e)))
  }

  /** The system reacts on its own: the system actor reacts to the system event. */
  function Sweep<D>(model: Model, b: Behavior<D>, st: RunState<D>, fuel: nat): Outcome<D>
    decreases fuel, 2
  {
    ReactTo(model, b, st, RunnerMessage, model.systemActor, fuel)
  }

  /** Starting a run: back to the position at start, then the system reacts on its own. */
  function Start<D>(model: Model, b: Behavior<D>, st: RunState<D>, fuel: nat): Outcome<D> {
    Sweep(model, b, st.(latest := None), fuel)
  }

  /** The actor messages from outside are reacted to for: the one set with `as`, else the user actor. */
  function ActingActor<D>(model: Model, st: RunState<D>): Actor {
    st.actor.GetOr(model.userActor)
  }

  /** Reacts to the messages in order, up to the first one whose dispatch fails. */
  function ReactToAll<D>(model: Model, b: Behavior<D>, st: RunState<D>, msgs: seq<Message>, fuel: nat): Outcome<D>
    decreases |msgs|
  {
    if msgs == [] then Outcome(st, [], None)
    else
      var o := ReactToAll(model, b, st, msgs[..|msgs| - 1], fuel);
      if o.failure.Some? then o
      else
        var last := ReactTo(model, b, o.state, msgs[|msgs| - 1], ActingActor(model, o.state), fuel);
        Outcome(last.state, o.ran + last.ran, last.failure)
  }

  /** Starting a run, then reacting to the messages in order, as long as nothing fails. */
  function RunAndReact<D>(model: Model, b: Behavior<D>, st: RunState<D>, msgs: seq<Message>, fuel: nat): Outcome<D> {
    var o := Start(model, b, st, fuel);
    if o.failure.Some? then o
    else
      var o' := ReactToAll(model, b, o.state, msgs, fuel);
      Outcome(o'.state, o.ran + o'.ran, o'.failure)
  }

  /** Reacting to two messages: the first, then, unless it failed, the second. */
  lemma ReactToTwo<D>(model: Model, b: Behavior<D>, st: RunState<D>, m1: Message, m2: Message, fuel: nat)
    ensures var o1 := ReactTo(model, b, st, m1, ActingActor(model, st), fuel);
      var o2 := ReactTo(model, b, o1.state, m2, ActingActor(model, o1.state), fuel);
      ReactToAll(model, b, st, [m1, m2], fuel)
        == if o1.failure.Some? then o1 else Outcome(o2.state, o1.ran + o2.ran, o2.failure)
  {
    assert [m1, m2][..1] == [m1];
    ReactToOne(model, b, st, m1, fuel);
  }

  /** Reacting to one message is reacting to it on behalf of the acting actor. */
  lemma ReactToOne<D>(model: Model, b: Behavior<D>, st: RunState<D>, m: Message, fuel: nat)
    ensures ReactToAll(model, b, st, [m], fuel) == ReactTo(model, b, st, m, ActingActor(model, st), fuel)
  {
    assert [m][..0] == [];
    var o := ReactTo(model, b, st, m, ActingActor(model, st), fuel);
    assert [] + o.ran == o.ran;
  }

  /**
   * A step whose reaction completes is followed by the system's own reactions: with `rest` the
   * outcome of those, the step's run is `rest` with the step in front.
   */
  lemma ThenDone<D>(model: Model, b: Behavior<D>, st: RunState<D>, m: Message, actor: Actor, s: StepDef, fuel: nat,
                    d: D, o: Outcome<D>, rest: Outcome<D>)
    requires o == Run(model, b, st, m, actor, s, fuel)
    requires Perform(b, s, st.data, m) == Done(d)
    requires Sweep(model, b, Entered(st, s).(data := d), fuel) == rest
    ensures o == Prepend(s, rest)
  {
  }

  /**
   * An exception raised by a step's reaction, and handled by the model, is reacted to for the
   * same actor as the message, and then, unless that failed, the system reacts on its own: with `handled`
   * the outcome of the re-dispatch and `after` that of the system's own reactions, the step's run
   * is the step, then the steps of both.
   */
  lemma ThenRaise<D>(model: Model, b: Behavior<D>, st: RunState<D>, m: Message, actor: Actor, s: StepDef, fuel: nat,
                     d: D, e: Message, o: Outcome<D>, handled: Outcome<D>, after: Outcome<D>)
    requires o == Run(model, b, st, m, actor, s, fuel)
    requires Perform(b, s, st.data, m) == Raise(d, e) && Handles(model, e)
    requires ReactTo(model, b, Entered(st, s).(data := d), e, actor, fuel) == handled
    requires Sweep(model, b, handled.state, fuel) == after
    ensures handled.failure.Some? ==> o == Prepend(s, handled)
    ensures handled.failure.None? ==> o == Outcome(after.state, [s] + handled.ran + after.ran, after.failure)
  {
  }

  /** An exception raised by a step's reaction, and handled by no step, ends the dispatch. */
  lemma RunRaiseUnhandled<D>(model: Model, b: Behavior<D>, st: RunState<D>, m: Message, actor: Actor, s: StepDef, fuel: nat, d: D, e: Message)
    requires Perform(b, s, st.data, m) == Raise(d, e) && !Handles(model, e)
    ensures Run(model, b, st, m, actor, s, fuel) == Outcome(Entered(st, s).(data := d), [s], Some(UnhandledException(e)))
  {
  }

  /** With exactly one candidate, which is eligible whenever it could react, that step runs. */
  lemma ReactToSoleCandidate<D>(model: Model, b: Behavior<D>, st: RunState<D>, m: Message, actor: Actor, fuel: nat, k: nat)
    requires fuel > 0 && k < |model.steps|
    requires Candidates(SituationOf(model, b, st, actor), m.cls) == [k]
    requires GuardsOnlyFor(model.steps[k].stepPredicate, model.steps[k].ref)
    requires Lookup(model, model.steps[k].ref) == Some(model.steps[k])
    ensures ReactTo(model, b, st, m, actor, fuel) == Run(model, b, st, m, actor, model.steps[k], fuel - 1)
  {
    SoleCandidateReacts(SituationOf(model, b, st, actor), m.cls, k);
  }

  /** With the step at index `k` the only eligible candidate, that step runs. */
  lemma ReactToOnlyEligible<D>(model: Model, b: Behavior<D>, st: RunState<D>, m: Message, actor: Actor, fuel: nat, k: nat)
    requires fuel > 0 && k < |model.steps|
    requires Eligible(SituationOf(model, b, st, actor), model.steps[k], m.cls)
    requires forall j :: j in Candidates(SituationOf(model, b, st, actor), m.cls) && j != k && j < |model.steps| ==>
      !Eligible(SituationOf(model, b, st, actor), model.steps[j], m.cls)
    ensures ReactTo(model, b, st, m, actor, fuel) == Run(model, b, st, m, actor, model.steps[k], fuel - 1)
  {
    OnlyEligibleReacts(SituationOf(model, b, st, actor), m.cls, k);
  }

  /** Idempotence of the no-op: without candidates, reacting changes nothing and runs nothing. */
  lemma NoCandidateChangesNothing<D>(model: Model, b: Behavior<D>, st: RunState<D>, m: Message, actor: Actor, fuel: nat)
    requires Candidates(SituationOf(model, b, st, actor), m.cls) == []
    ensures ReactTo(model, b, st, m, actor, fuel) == Outcome(st, [], None)
  {
    NoCandidateNoReaction(SituationOf(model, b, st, actor), m.cls);
  }

  /**
   * An actor that no step names, in a model where no step names the system actor either, gets no
   * reaction: nothing runs and nothing changes.
   */
  lemma ActorMismatchIsNoOp<D>(model: Model, b: Behavior<D>, st: RunState<D>, m: Message, actor: Actor, fuel: nat)
    requires forall j :: 0 <= j < |model.steps| ==> actor !in model.steps[j].actors && model.systemActor !in model.steps[j].actors
    ensures ReactTo(model, b, st, m, actor, fuel) == Outcome(st, [], None)
  {
    NoneEligibleFrom(SituationOf(model, b, st, actor), m.cls, 0);
  }

  lemma {:induction false} NoneEligibleFrom(ctx: Situation, cls: MessageClass, i: nat)
    requires i <= |ctx.model.steps|
    requires forall j :: i <= j < |ctx.model.steps| ==> !ActorMatches(ctx, ctx.model.steps[j])
    ensures ReactingFrom(ctx, cls, i) == []
    decreases |ctx.model.steps| - i
  {
    if i < |ctx.model.steps| {
      NoneEligibleFrom(ctx, cls, i + 1);
    }
  }

  lemma {:induction false} NamesAppend(a: seq<StepDef>, c: seq<StepDef>)
    ensures Names(a + c) == Names(a) + Names(c)
  {
    if a == [] {
      assert a + c == c;
    } else {
      assert (a + c)[0] == a[0] && (a + c)[1..] == a[1..] + c;
      NamesAppend(a[1..], c);
    }
  }

  /**
   * What every dispatch keeps, from state `st` to outcome `o`: recording and the actor set with
   * `as` are unchanged, the names of the steps that ran are appended to the recorded names when
   * recording is on, and the latest step is the last step that ran, or the old one when none ran.
   */
  predicate Continues<D>(st: RunState<D>, o: Outcome<D>) {
    o.state.recording == st.recording && o.state.actor == st.actor
    && o.state.recorded == st.recorded + (if st.recording then Names(o.ran) else [])
    && o.state.latest == (if o.ran == [] then st.latest else Some(o.ran[|o.ran| - 1].ref))
  }

  /** Two dispatches one after the other continue the first state with the steps of both. */
  lemma ContinuesChains<D>(st: RunState<D>, o1: Outcome<D>, o2: Outcome<D>, failure: Option<Failure>)
    requires Continues(st, o1) && Continues(o1.state, o2)
    ensures Continues(st, Outcome(o2.state, o1.ran + o2.ran, failure))
  {
    NamesAppend(o1.ran, o2.ran);
    if o2.ran != [] {
      assert (o1.ran + o2.ran)[|o1.ran + o2.ran| - 1] == o2.ran[|o2.ran| - 1];
    } else {
      assert o1.ran + o2.ran == o1.ran;
    }
  }

  /** A step entered in front of a dispatch that continues the entered state continues the old one. */
  lemma ContinuesAfterEntering<D>(st: RunState<D>, s: StepDef, d: D, o: Outcome<D>)
    requires Continues(Entered(st, s).(data := d), o)
    ensures Continues(st, Prepend(s, o))
  {
    assert Names([s]) == [s.name] by {
      assert [s][1..] == [];
    }
    NamesAppend([s], o.ran);
    var e := Outcome(Entered(st, s).(data := d), [s], None);
    assert Continues(st, e);
    ContinuesChains(st, e, o, o.failure);
  }

  /** Reacting continues the state (see `Continues`), whatever the message, actor and fuel. */
  lemma {:induction false} ReactToContinues<D>(model: Model, b: Behavior<D>, st: RunState<D>, m: Message, actor: Actor, fuel: nat)
    ensures Continues(st, ReactTo(model, b, st, m, actor, fuel))
    decreases fuel, 1
  {
    var candidates := ReactingSteps(SituationOf(model, b, st, actor), m.cls);
    if |candidates| == 1 && fuel > 0 {
      RunContinues(model, b, st, m, actor, candidates[0], fuel - 1);
    }
  }

  lemma {:induction false} RunContinues<D>(model: Model, b: Behavior<D>, st: RunState<D>, m: Message, actor: Actor, s: StepDef, fuel: nat)
    ensures Continues(st, Run(model, b, st, m, actor, s, fuel))
    decreases fuel, 3
  {
    var entered := Entered(st, s);
    match Perform(b, s, entered.data, m)
    case Done(d) =>
      ReactToContinues(model, b, entered.(data := d), RunnerMessage, model.systemActor, fuel);
      ContinuesAfterEntering(st, s, d, Sweep(model, b, entered.(data := d), fuel));
    case Publish(d, published) =>
      var o := ReactTo(model, b, entered.(data := d), published, actor, fuel);
      ReactToContinues(model, b, entered.(data := d), published, actor, fuel);
      if o.failure.Some? {
        ContinuesAfterEntering(st, s, d, o);
      } else {
        var o' := Sweep(model, b, o.state, fuel);
        ReactToContinues(model, b, o.state, RunnerMessage, model.systemActor, fuel);
        ContinuesChains(entered.(data := d), o, o', o'.failure);
        ContinuesAfterEntering(st, s, d, Outcome(o'.state, o.ran + o'.ran, o'.failure));
        assert [s] + o.ran + o'.ran == [s] + (o.ran + o'.ran);
      }
    case Raise(d, e) =>
      if Handles(model, e) {
        var o := ReactTo(model, b, entered.(data := d), e, actor, fuel);
        ReactToContinues(model, b, entered.(data := d), e, actor, fuel);
        if o.failure.Some? {
          ContinuesAfterEntering(st, s, d, o);
        } else {
          var o' := Sweep(model, b, o.state, fuel);
          ReactToContinues(model, b, o.state, RunnerMessage, model.systemActor, fuel);
          ContinuesChains(entered.(data := d), o, o', o'.failure);
          ContinuesAfterEntering(st, s, d, Outcome(o'.state, o.ran + o'.ran, o'.failure));
          assert [s] + o.ran + o'.ran == [s] + (o.ran + o'.ran);
        }
      } else {
        ContinuesAfterEntering(st, s, d, Outcome(entered.(data := d), [], Some(UnhandledException(e))));
      }
  }

  /** Reacting to messages in order continues the state with all the steps that ran. */
  lemma {:induction false} ReactToAllContinues<D>(model: Model, b: Behavior<D>, st: RunState<D>, msgs: seq<Message>, fuel: nat)
    ensures Continues(st, ReactToAll(model, b, st, msgs, fuel))
    decreases |msgs|
  {
    if msgs != [] {
      var o := ReactToAll(model, b, st, msgs[..|msgs| - 1], fuel);
      ReactToAllContinues(model, b, st, msgs[..|msgs| - 1], fuel);
      if o.failure.None? {
        var last := ReactTo(model, b, o.state, msgs[|msgs| - 1], ActingActor(model, o.state), fuel);
        ReactToContinues(model, b, o.state, msgs[|msgs| - 1], ActingActor(model, o.state), fuel);
        ContinuesChains(st, o, last, last.failure);
      }
    }
  }

  /**
   * A recorded run records exactly the names of the steps that ran, in the order they ran, and
   * ends with the last of them as the latest step.
   */
  lemma RunAndReactRecords<D>(model: Model, b: Behavior<D>, st: RunState<D>, msgs: seq<Message>, fuel: nat)
    requires st.recording
    ensures var o := RunAndReact(model, b, st, msgs, fuel);
      o.state.recorded == st.recorded + Names(o.ran)
      && o.state.latest == (if o.ran == [] then None else Some(o.ran[|o.ran| - 1].ref))
  {
    var st0 := st.(latest := None);
    var o := Start(model, b, st, fuel);
    ReactToContinues(model, b, st0, RunnerMessage, model.systemActor, fuel);
    if o.failure.None? {
      ReactToAllContinues(model, b, o.state, msgs, fuel);
      ContinuesChains(st0, o, ReactToAll(model, b, o.state, msgs, fuel), ReactToAll(model, b, o.state, msgs, fuel).failure);
    }
  }
}
