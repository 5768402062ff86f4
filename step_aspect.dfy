/**
 * `AllureStepAspect`: the advice woven around methods marked as steps or as
 * setup/teardown fixtures. Before the target runs, a fixture is started (in
 * a container) and a step is started (in a test or fixture); afterwards the
 * step and the fixture are passed, or resolved from the exception the target
 * threw, which is then rethrown. The step name and parameters are computed
 * lazily, only when something is started.
 */
module AllureStepAspect {
  import opened Wrappers
  import opened Model
  import opened Tracker
  import opened ExtendedApi

  /** `System.Lazy<T>` over a factory without side effects. */
  class Lazy<T> {
    const factory: () -> T
    var isValueCreated: bool
    /** How many times the factory has run. */
    var runs: nat

    predicate Valid()
      reads this
    {
      runs == if isValueCreated then 1 else 0
    }

    constructor (factory: () -> T)
      ensures this.factory == factory && !isValueCreated && runs == 0 && Valid()
    {
      this.factory := factory;
      isValueCreated := false;
      runs := 0;
    }

    /** `Value`: runs the factory on first use only. */
    method Value() returns (v: T)
      requires Valid()
      modifies this
      ensures Valid() && isValueCreated && v == factory()
      ensures runs == if old(isValueCreated) then old(runs) else old(runs) + 1
    {
      if !isValueCreated {
        runs := runs + 1;
        isValueCreated := true;
      }
      v := factory();
    }
  }

  /** Which of the step, setup and teardown attributes the intercepted method carries (inherited ones included). */
  datatype MethodAttributes = MethodAttributes(isStep: bool, isBefore: bool, isAfter: bool)
  {
    predicate IsFixture() { isBefore || isAfter }
  }

  /** The step's callback: its parameters become the method's formatted arguments. */
  function WithParameters(parameters: seq<Parameter>): ItemUpdate {
    (step: ExecutableItem) => step.(parameters := parameters)
  }

  /** The context after the fixture part of `BeforeTargetInvoke`: a setup, then a teardown fixture is started. */
  function FixturePart(c: Context, attributes: MethodAttributes, name: string): (r: Context)
    requires c.Valid()
    ensures r.Valid() && r.container == c.container
    ensures c.HasContainer() && attributes.IsFixture() ==>
      r.fixture == Some(NewItem(name)) && r.steps == [] && r.phase == (if attributes.isAfter then After else Before)
    ensures !(c.HasContainer() && attributes.IsFixture()) ==> r == c
  {
    var c1 := if c.HasContainer() && attributes.isBefore then c.StartFixture(Before, name) else c;
    if c.HasContainer() && attributes.isAfter then c1.StartFixture(After, name) else c1
  }

  /** Whether `BeforeTargetInvoke` starts a step: the method is a step and a test or fixture is running by then. */
  predicate StartsStep(c: Context, attributes: MethodAttributes, name: string)
    requires c.Valid()
  {
    attributes.isStep && FixturePart(c, attributes, name).HasTestOrFixture()
  }

  /** Whether `BeforeTargetInvoke` asks for the step name: a container is active, or a test or fixture is by the step part. */
  predicate NeedsName(c: Context, attributes: MethodAttributes, name: string)
    requires c.Valid()
  {
    c.HasContainer() || FixturePart(c, attributes, name).HasTestOrFixture()
  }

  /** Whether `BeforeTargetInvoke` asks for the step parameters: a test or fixture is active by the step part. */
  predicate NeedsParameters(c: Context, attributes: MethodAttributes, name: string)
    requires c.Valid()
  {
    FixturePart(c, attributes, name).HasTestOrFixture()
  }

  /** The context after `BeforeTargetInvoke`. */
  function Started(c: Context, attributes: MethodAttributes, name: string, parameters: seq<Parameter>): (r: Context)
    requires c.Valid()
    ensures r.Valid()
  {
    var c2 := FixturePart(c, attributes, name);
    if StartsStep(c, attributes, name) then c2.StartStep(name).UpdateStep(WithParameters(parameters)) else c2
  }

  /** The calls `BeforeTargetInvoke` makes, in order. */
  function StartedEvents(c: Context, attributes: MethodAttributes, name: string): seq<Event>
    requires c.Valid()
  {
    FixtureEvents(c, attributes, name) + (if StartsStep(c, attributes, name) then [StepStarted(name), StepUpdated] else [])
  }

  /** The calls the fixture part of `BeforeTargetInvoke` makes, in order. */
  function FixtureEvents(c: Context, attributes: MethodAttributes, name: string): seq<Event> {
    (if c.HasContainer() && attributes.isBefore then [FixtureStarted(Before, name)] else [])
    + (if c.HasContainer() && attributes.isAfter then [FixtureStarted(After, name)] else [])
  }

  /** The stop callback: passed after a normal return, resolved from the exception otherwise. */
  function Conclusion(failExceptions: seq<string>, error: Option<Error>): ItemUpdate {
    if error.None? then Stamp(Passed, None) else Resolution(failExceptions, error)
  }

  /** The context after `AfterTargetInvoke` or `OnTargetInvokeException`: the step, then the fixture is stopped. */
  function Concluded(c: Context, attributes: MethodAttributes, failExceptions: seq<string>, error: Option<Error>): (r: Context)
    requires c.Valid()
    ensures r.Valid()
  {
    var stop := Conclusion(failExceptions, error);
    var c1 := if attributes.isStep then StepVerb(c, None, stop) else c;
    if attributes.IsFixture() then FixtureVerb(c1, None, stop) else c1
  }

  /** The calls the concluding advice makes, in order. */
  function ConcludedEvents(c: Context, attributes: MethodAttributes, failExceptions: seq<string>, error: Option<Error>): seq<Event>
    requires c.Valid()
  {
    var status := ResolveDetailedStatus(failExceptions, error).0;
    var c1 := if attributes.isStep then StepVerb(c, None, Conclusion(failExceptions, error)) else c;
    (if attributes.isStep && c.HasStep() then [StepStopped(status)] else [])
    + (if attributes.IsFixture() && c1.HasFixture() then [FixtureStopped(status)] else [])
  }

  /** The aspect's `StartFixture`: starts a setup, then a teardown fixture, as the attributes ask. */
  method StartFixtureFor(lc: Lifecycle, attributes: MethodAttributes, name: string)
    requires lc.context.Valid()
    modifies lc`context, lc`trace
    ensures lc.context == FixturePart(old(lc.context), attributes, name)
    ensures lc.trace == old(lc.trace) + FixtureEvents(old(lc.context), attributes, name)
  {
    if attributes.isBefore {
      StartBeforeFixture(lc, name);
    }
    if attributes.isAfter {
      StartAfterFixture(lc, name);
    }
  }

  /** The aspect's `StartStep`: a step method starts a step carrying the call's parameters. */
  method StartStepFor(lc: Lifecycle, attributes: MethodAttributes, name: string, parameters: seq<Parameter>)
    requires lc.context.Valid()
    modifies lc`context, lc`trace
    ensures lc.context.Valid()
    ensures attributes.isStep && old(lc.context).HasTestOrFixture() ==>
      lc.context == old(lc.context).StartStep(name).UpdateStep(WithParameters(parameters))
      && lc.trace == old(lc.trace) + [StepStarted(name), StepUpdated]
    ensures !(attributes.isStep && old(lc.context).HasTestOrFixture()) ==>
      lc.context == old(lc.context) && lc.trace == old(lc.trace)
  {
    if attributes.isStep {
      StartStep(lc, name, Some(WithParameters(parameters)));
    }
  }

  /** The fixture half of `BeforeTargetInvoke`: in a container, computes the name and starts the fixture. */
  method BeforeTargetInvokeFixture(lc: Lifecycle, attributes: MethodAttributes, stepName: Lazy<string>)
    requires lc.context.Valid() && stepName.Valid()
    modifies lc`context, lc`trace, stepName
    ensures lc.context.Valid() && stepName.Valid()
    ensures lc.context == FixturePart(old(lc.context), attributes, stepName.factory())
    ensures lc.trace == old(lc.trace) + FixtureEvents(old(lc.context), attributes, stepName.factory())
    ensures stepName.isValueCreated == (old(stepName.isValueCreated) || old(lc.context).HasContainer())
  {
    if lc.context.HasContainer() {
      var fixtureName := stepName.Value();
      StartFixtureFor(lc, attributes, fixtureName);
    }
  }

  /** The step half of `BeforeTargetInvoke`: in a test or fixture, computes name and parameters and starts the step. */
  method BeforeTargetInvokeStep(lc: Lifecycle, attributes: MethodAttributes, stepName: Lazy<string>, stepParameters: Lazy<seq<Parameter>>)
    requires lc.context.Valid() && stepName.Valid() && stepParameters.Valid()
    modifies lc`context, lc`trace, stepName, stepParameters
    ensures lc.context.Valid() && stepName.Valid() && stepParameters.Valid()
    ensures attributes.isStep && old(lc.context).HasTestOrFixture() ==>
      lc.context == old(lc.context).StartStep(stepName.factory()).UpdateStep(WithParameters(stepParameters.factory()))
    ensures !(attributes.isStep && old(lc.context).HasTestOrFixture()) ==> lc.context == old(lc.context)
    ensures lc.trace == old(lc.trace)
      + (if attributes.isStep && old(lc.context).HasTestOrFixture() then [StepStarted(stepName.factory()), StepUpdated] else [])
    ensures stepName.isValueCreated == (old(stepName.isValueCreated) || old(lc.context).HasTestOrFixture())
    ensures stepParameters.isValueCreated == (old(stepParameters.isValueCreated) || old(lc.context).HasTestOrFixture())
  {
    if lc.context.HasTestOrFixture() {
      var stepTitle := stepName.Value();
      var parameters := stepParameters.Value();
      StartStepFor(lc, attributes, stepTitle, parameters);
    }
  }

  /**
   * `BeforeTargetInvoke`: in a container, computes the name and starts the
   * fixture the attributes ask for; then, in a test or fixture, computes
   * name and parameters and starts the step if the method is one.
   */
  method BeforeTargetInvoke(lc: Lifecycle, attributes: MethodAttributes, stepName: Lazy<string>, stepParameters: Lazy<seq<Parameter>>)
    requires lc.context.Valid() && stepName.Valid() && stepParameters.Valid()
    modifies lc`context, lc`trace, stepName, stepParameters
    ensures lc.context.Valid() && stepName.Valid() && stepParameters.Valid()
    ensures lc.context == Started(old(lc.context), attributes, stepName.factory(), stepParameters.factory())
    ensures lc.trace == old(lc.trace) + StartedEvents(old(lc.context), attributes, stepName.factory())
    ensures stepName.isValueCreated == (old(stepName.isValueCreated) || NeedsName(old(lc.context), attributes, stepName.factory()))
    ensures stepParameters.isValueCreated ==
      (old(stepParameters.isValueCreated) || NeedsParameters(old(lc.context), attributes, stepName.factory()))
  {
    ghost var tr := lc.trace;
    BeforeTargetInvokeFixture(lc, attributes, stepName);
    ghost var tr1 := lc.trace;
    BeforeTargetInvokeStep(lc, attributes, stepName, stepParameters);
    assert lc.trace == tr + (tr1[|tr|..] + lc.trace[|tr1|..]);
  }

  /** `AfterTargetInvoke`: passes the step, then the fixture, that the attributes name. */
  method AfterTargetInvoke(lc: Lifecycle, attributes: MethodAttributes)
    requires lc.context.Valid()
    modifies lc`context, lc`trace
    ensures lc.context.Valid()
    ensures lc.context == Concluded(old(lc.context), attributes, FailExceptions(lc.failExceptions), None)
    ensures lc.trace == old(lc.trace) + ConcludedEvents(old(lc.context), attributes, FailExceptions(lc.failExceptions), None)
  {
    if attributes.isStep {
      PassStep(lc, None);
    }
    if attributes.IsFixture() {
      PassFixture(lc, None);
    }
  }

  /** `OnTargetInvokeException`: resolves the step, then the fixture, from the exception. */
  method OnTargetInvokeException(lc: Lifecycle, attributes: MethodAttributes, error: Error)
    requires lc.context.Valid()
    modifies lc`context, lc`trace
    ensures lc.context.Valid()
    ensures lc.context == Concluded(old(lc.context), attributes, FailExceptions(lc.failExceptions), Some(error))
    ensures lc.trace == old(lc.trace) + ConcludedEvents(old(lc.context), attributes, FailExceptions(lc.failExceptions), Some(error))
  {
    if attributes.isStep {
      ResolveStep(lc, Some(error));
    }
    if attributes.IsFixture() {
      ResolveFixture(lc, Some(error));
    }
  }

  /**
   * `WrapSync`, `WrapSyncVoid`, `WrapAsync` and `WrapAsyncGeneric`: the
   * before-advice, the target, then the after-advice or, when the target
   * throws, the exception advice; the target's outcome is passed on.
   */
  method Wrap<T>(lc: Lifecycle, attributes: MethodAttributes, stepName: Lazy<string>, stepParameters: Lazy<seq<Parameter>>,
                 target: Completion<T>) returns (r: Completion<T>)
    requires lc.context.Valid() && stepName.Valid() && stepParameters.Valid()
    modifies lc`context, lc`trace, stepName, stepParameters
    ensures r == target && lc.context.Valid() && stepName.Valid() && stepParameters.Valid()
    ensures
      var started := Started(old(lc.context), attributes, stepName.factory(), stepParameters.factory());
      var fe := FailExceptions(lc.failExceptions);
      lc.context == Concluded(started, attributes, fe, target.ErrorOf())
      && lc.trace == old(lc.trace) + StartedEvents(old(lc.context), attributes, stepName.factory()) + [DelegateRan]
                     + ConcludedEvents(started, attributes, fe, target.ErrorOf())
    ensures stepName.isValueCreated == (old(stepName.isValueCreated) || NeedsName(old(lc.context), attributes, stepName.factory()))
    ensures stepParameters.isValueCreated ==
      (old(stepParameters.isValueCreated) || NeedsParameters(old(lc.context), attributes, stepName.factory()))
    ensures !old(lc.context).HasContainer() && !old(lc.context).HasTestOrFixture() ==>
      stepName.runs == old(stepName.runs) && stepParameters.runs == old(stepParameters.runs)
  {
    BeforeTargetInvoke(lc, attributes, stepName, stepParameters);
    lc.RunDelegate();
    match target {
      case Returned(_) =>
        AfterTargetInvoke(lc, attributes);
      case Threw(e) =>
        OnTargetInvokeException(lc, attributes, e);
    }
    r := target;
  }

  /**
   * A step method called inside a test or fixture adds one child to the
   * current item: a step with the computed name and parameters and the
   * status and details its outcome resolves to. The open steps stay open.
   */
  lemma StepMethodRecords(c: Context, name: string, parameters: seq<Parameter>, failExceptions: seq<string>, error: Option<Error>)
    requires c.Valid() && c.HasTestOrFixture()
    ensures var (status, details) := ResolveDetailedStatus(failExceptions, error);
            var step := NewItem(name).(parameters := parameters, status := status, statusDetails := details);
            var attributes := MethodAttributes(true, false, false);
            Concluded(Started(c, attributes, name, parameters), attributes, failExceptions, error)
              == c.UpdateExecutableItem((p: ExecutableItem) => AppendChild(p, step))
  {
    var attributes := MethodAttributes(true, false, false);
    var s := c.StartStep(name);
    var u := s.UpdateStep(WithParameters(parameters));
    assert Started(c, attributes, name, parameters) == u;
    assert u.(steps := u.steps[..|u.steps| - 1]) == c;
  }

  /**
   * A setup or teardown method inside a container leaves no fixture or step
   * open and adds one fixture to the phase its attribute names (teardown
   * when it has both): named after the method, with the status and details
   * its outcome resolves to.
   */
  lemma FixtureMethodRecords(c: Context, attributes: MethodAttributes, name: string, parameters: seq<Parameter>,
                             failExceptions: seq<string>, error: Option<Error>)
    requires c.Valid() && c.HasContainer() && attributes.IsFixture() && !attributes.isStep
    ensures var r := Concluded(Started(c, attributes, name, parameters), attributes, failExceptions, error);
            var (status, details) := ResolveDetailedStatus(failExceptions, error);
            var p := if attributes.isAfter then After else Before;
            !r.HasFixture() && !r.HasStep() && r.test == c.test
            && r.Finished(p) == c.Finished(p) + [NewItem(name).(status := status, statusDetails := details)]
  {
  }

  /** The return types `Around` tells apart. */
  datatype ReturnType =
    | VoidType
    | TaskType
    /** `Task<T>` or another type deriving from `Task`, with its generic arguments when constructed. */
    | TaskSubtype(genericArguments: seq<string>)
    | OtherType(typeName: string)

  /** The wrapper `Around` invokes, with the type argument of the generic ones. */
  datatype Handler = AsyncHandler | AsyncGenericHandler(resultType: string) | SyncVoidHandler | SyncHandler(valueType: ReturnType)

  const VoidTaskResult: string := "System.Threading.Tasks.VoidTaskResult"

  /**
   * The dispatch of `Around`: tasks are awaited (with the task's result type
   * when it has one), `void` methods and the rest are wrapped synchronously.
   */
  function SelectHandler(returnType: ReturnType): (r: Handler)
    ensures (r.AsyncHandler? || r.AsyncGenericHandler?) <==> (returnType.TaskType? || returnType.TaskSubtype?)
    ensures r.AsyncHandler? <==> returnType == TaskType
    ensures r.SyncVoidHandler? <==> returnType == VoidType
    ensures r.AsyncGenericHandler? ==>
      r.resultType == if returnType.genericArguments != [] then returnType.genericArguments[0] else VoidTaskResult
    ensures r.SyncHandler? ==> returnType.OtherType? && r.valueType == returnType
  {
    match returnType
    case TaskType => AsyncHandler
    case TaskSubtype(args) => AsyncGenericHandler(if args != [] then args[0] else VoidTaskResult)
    case VoidType => SyncVoidHandler
    case OtherType(_) => SyncHandler(returnType)
  }

  /** `AllureStepParameterHelper.GetStepName` and `GetStepParameters` over the call's arguments, which are not part of this model. */
  datatype StepDescriber = StepDescriber(stepName: string -> string, stepParameters: () -> seq<Parameter>)

  /**
   * `Around`: the step name pattern is the attribute's name or, without one,
   * the method's; name and parameters are wrapped in lazies and the handler
   * for the return type runs the target.
   */
  method Around<T>(lc: Lifecycle, name: string, attributeName: Option<string>, attributes: MethodAttributes,
                   returnType: ReturnType, describer: StepDescriber, target: Completion<T>)
    returns (handler: Handler, r: Completion<T>, nameRuns: nat, parameterRuns: nat)
    requires lc.context.Valid()
    modifies lc`context, lc`trace
    ensures handler == SelectHandler(returnType) && r == target && lc.context.Valid()
    ensures var stepName := describer.stepName(attributeName.GetOr(name));
            nameRuns == (if NeedsName(old(lc.context), attributes, stepName) then 1 else 0)
            && parameterRuns == (if NeedsParameters(old(lc.context), attributes, stepName) then 1 else 0)
    ensures !old(lc.context).HasContainer() && !old(lc.context).HasTestOrFixture() ==> nameRuns == 0 && parameterRuns == 0
    ensures
      var stepName := describer.stepName(attributeName.GetOr(name));
      var started := Started(old(lc.context), attributes, stepName, describer.stepParameters());
      var fe := FailExceptions(lc.failExceptions);
      lc.context == Concluded(started, attributes, fe, target.ErrorOf())
      && lc.trace == old(lc.trace) + StartedEvents(old(lc.context), attributes, stepName) + [DelegateRan]
                     + ConcludedEvents(started, attributes, fe, target.ErrorOf())
  {
    var pattern := attributeName.GetOr(name);
    var stepName := new Lazy(() => describer.stepName(pattern));
    var stepParameters := new Lazy(describer.stepParameters);
    handler := SelectHandler(returnType);
    r := Wrap(lc, attributes, stepName, stepParameters, target);
    nameRuns, parameterRuns := stepName.runs, stepParameters.runs;
  }
}
