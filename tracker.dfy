/**
 * The tracker the facade drives (`AllureLifecycle` over an immutable
 * `AllureContext`), modelled abstractly: what is running in the current
 * execution flow (a container, a test, a fixture, a stack of open steps),
 * the transitions the facade calls, and a trace of every call the facade
 * makes into the tracker, the results writer, the type formatters and the
 * user's own code.
 */
module Tracker {
  import opened Wrappers
  import opened Model

  /** Whether the current fixture is a setup (`Before`) or a teardown (`After`). */
  datatype Phase = Before | After

  /** A callback that edits a step, fixture or test body (`Action<ExecutableItem>`). */
  type ItemUpdate = ExecutableItem -> ExecutableItem

  /** How the user's code ended: with a value, or by throwing `error`. */
  datatype Completion<T> = Returned(value: T) | Threw(error: Error) {
    function ErrorOf(): Option<Error> {
      if Threw? then Some(error) else None
    }
  }

  /** Appends `child` to the children of `parent`. */
  function AppendChild(parent: ExecutableItem, child: ExecutableItem): ExecutableItem {
    parent.(steps := parent.steps + [child])
  }

  /**
   * Nests the steps left open (outermost first) under `base`: each open step
   * ends up as the last child of the one enclosing it, so none is lost when
   * its owner stops.
   */
  function Attach(base: ExecutableItem, open: seq<ExecutableItem>): (r: ExecutableItem)
    ensures open != [] ==> r.steps == base.steps + [Attach(open[0], open[1..])]
    ensures open == [] ==> r == base
    decreases |open|
  {
    if open == [] then base else AppendChild(base, Attach(open[0], open[1..]))
  }

  /**
   * A snapshot of `AllureContext`: the active container, test and fixture
   * and the open steps, innermost last.
   */
  datatype Context = Context(
    container: Option<Container>,
    test: Option<TestResult>,
    fixture: Option<ExecutableItem>,
    phase: Phase,
    steps: seq<ExecutableItem>)
  {
    predicate HasContainer() { container.Some? }
    predicate HasTest() { test.Some? }
    predicate HasFixture() { fixture.Some? }
    predicate HasStep() { steps != [] }
    predicate HasTestOrFixture() { HasTest() || HasFixture() }

    /** Steps only run inside a test or a fixture; fixtures only inside a container. */
    predicate Valid() {
      (HasStep() ==> HasTestOrFixture()) && (HasFixture() ==> HasContainer())
    }

    /** The item that receives new steps and attachments: the innermost step, else the fixture, else the test. */
    function CurrentStepContainer(): ExecutableItem
      requires HasTestOrFixture()
    {
      if HasStep() then steps[|steps| - 1]
      else if HasFixture() then fixture.value
      else test.value.item
    }

    /** `UpdateExecutableItem`: applies `f` to the current step container and to nothing else. */
    function UpdateExecutableItem(f: ExecutableItem -> ExecutableItem): (r: Context)
      requires HasTestOrFixture()
      ensures r.HasTestOrFixture() && r.CurrentStepContainer() == f(CurrentStepContainer())
      ensures r.container == container && r.phase == phase && |r.steps| == |steps|
      ensures r.HasTest() == HasTest() && r.HasFixture() == HasFixture()
      ensures HasStep() ==> r.steps[..|steps| - 1] == steps[..|steps| - 1]
      ensures Valid() ==> r.Valid()
    {
      if HasStep() then this.(steps := steps[..|steps| - 1] + [f(steps[|steps| - 1])])
      else if HasFixture() then this.(fixture := Some(f(fixture.value)))
      else this.(test := Some(test.value.(item := f(test.value.item))))
    }

    function UpdateTestCase(f: TestResult -> TestResult): (r: Context)
      requires HasTest()
      ensures Valid() ==> r.Valid()
    {
      this.(test := Some(f(test.value)))
    }

    function UpdateFixture(f: ExecutableItem -> ExecutableItem): (r: Context)
      requires HasFixture()
      ensures Valid() ==> r.Valid()
    {
      this.(fixture := Some(f(fixture.value)))
    }

    function UpdateStep(f: ExecutableItem -> ExecutableItem): (r: Context)
      requires HasStep()
      ensures Valid() ==> r.Valid()
    {
      this.(steps := steps[..|steps| - 1] + [f(steps[|steps| - 1])])
    }

    /** `StartStep`: a new step named `name` becomes the innermost open step; nothing else changes. */
    function StartStep(name: string): (r: Context)
      requires HasTestOrFixture()
      ensures r.HasTestOrFixture() && r.HasStep() && r.CurrentStepContainer() == NewItem(name)
      ensures r.steps[..|r.steps| - 1] == steps
      ensures r.(steps := steps) == this
      ensures Valid() ==> r.Valid()
    {
      this.(steps := steps + [NewItem(name)])
    }

    /** The item the innermost step was started in. */
    function ParentOfInnermost(): ExecutableItem
      requires Valid() && HasStep()
    {
      this.(steps := steps[..|steps| - 1]).CurrentStepContainer()
    }

    /**
     * `StopStep`: applies `f` to the innermost step, closes it and makes it
     * the last child of its parent, which becomes the current step container.
     */
    function StopStep(f: ExecutableItem -> ExecutableItem): (r: Context)
      requires Valid() && HasStep()
      ensures r.Valid() && r.HasTestOrFixture()
      ensures |r.steps| == |steps| - 1
      ensures r.CurrentStepContainer() == AppendChild(ParentOfInnermost(), f(steps[|steps| - 1]))
      ensures |steps| > 1 ==> r.steps[..|steps| - 2] == steps[..|steps| - 2]
      ensures r.container == container && r.phase == phase
    {
      var n := |steps|;
      var done := f(steps[n - 1]);
      if n > 1 then this.(steps := steps[..n - 2] + [AppendChild(steps[n - 2], done)])
      else if HasFixture() then this.(steps := [], fixture := Some(AppendChild(fixture.value, done)))
      else this.(steps := [], test := Some(test.value.(item := AppendChild(test.value.item, done))))
    }

    /**
     * `StartBeforeFixture`/`StartAfterFixture`: a new fixture named `name`
     * becomes current; unfinished steps are removed.
     */
    function StartFixture(phase': Phase, name: string): (r: Context)
      requires HasContainer()
      ensures r.Valid() && r.fixture == Some(NewItem(name)) && r.phase == phase' && r.steps == []
      ensures r.container == container && r.test == test
    {
      this.(fixture := Some(NewItem(name)), phase := phase', steps := [])
    }

    /** The fixtures of the container that have finished in `p`'s phase, in order. */
    function Finished(p: Phase): seq<ExecutableItem>
      requires HasContainer()
    {
      if p == Before then container.value.befores else container.value.afters
    }

    /**
     * `StopFixture`: applies `f` to the fixture (with its open steps nested
     * under it) and records it in the container; no fixture and no step stay open.
     */
    function StopFixture(f: ExecutableItem -> ExecutableItem): (r: Context)
      requires Valid() && HasFixture()
      ensures r.Valid() && !r.HasFixture() && !r.HasStep() && r.HasContainer()
      ensures r.Finished(phase) == Finished(phase) + [f(Attach(fixture.value, steps))]
      ensures r.Finished(if phase == Before then After else Before)
           == Finished(if phase == Before then After else Before)
      ensures r.test == test
    {
      var done := f(Attach(fixture.value, steps));
      var c := container.value;
      this.(
        container := Some(if phase == Before then c.(befores := c.befores + [done]) else c.(afters := c.afters + [done])),
        fixture := None,
        steps := [])
    }

    /**
     * `StopTestCase`: applies `f` to the test; when no fixture owns the open
     * steps, they are nested under the test and closed.
     */
    function StopTestCase(f: TestResult -> TestResult): (r: Context)
      requires Valid() && HasTest()
      ensures r.Valid() && r.HasTest()
      ensures !HasFixture() ==> !r.HasStep()
    {
      if HasFixture() then this.(test := Some(f(test.value)))
      else this.(test := Some(f(test.value.(item := Attach(test.value.item, steps)))), steps := [])
    }
  }

  /** Starting steps A, B, C and stopping twice closes C then B and leaves A open. */
  lemma {:induction false} StopOrder(c: Context, a: string, b: string, s: string, f: ExecutableItem -> ExecutableItem)
    requires c.Valid() && c.HasTestOrFixture()
    ensures var open := c.StartStep(a).StartStep(b).StartStep(s);
            var closed := open.StopStep(f).StopStep(f);
            closed.steps == c.steps + [AppendChild(NewItem(a), f(AppendChild(NewItem(b), f(NewItem(s)))))]
  {
    var c1 := c.StartStep(a);
    var c2 := c1.StartStep(b);
    var c3 := c2.StartStep(s);
    var d1 := c3.StopStep(f);
    assert d1.steps == c2.steps[..|c2.steps| - 1] + [AppendChild(NewItem(b), f(NewItem(s)))];
    var d2 := d1.StopStep(f);
    assert d2.steps == c.steps + [AppendChild(NewItem(a), f(AppendChild(NewItem(b), f(NewItem(s)))))];
  }

  /** An observable call: into the tracker, the results writer, the type formatters, or the user's code. */
  datatype Event =
    | TestUpdated
    | FixtureUpdated
    | StepUpdated
    | ItemUpdated
    | FixtureStarted(phase: Phase, name: string)
    | FixtureStopped(status: Status)
    | StepStarted(name: string)
    | StepStopped(status: Status)
    | TestStopped(status: Status)
    | Written(source: string, content: Bytes)
    | DelegateRan
    | ValueFormatted

  /** `AllureLifecycle` with its configuration; `trace` records every call made through it. */
  class Lifecycle {
    var context: Context
    var trace: seq<Event>
    /** `AllureConfiguration.FailExceptions` (null when not configured). */
    var failExceptions: Option<seq<string>>
    /** `AllureConfiguration.UseLegacyIds`. */
    var useLegacyIds: bool

    constructor (initial: Context, failExceptions: Option<seq<string>>, useLegacyIds: bool)
      requires initial.Valid()
      ensures context == initial && trace == []
      ensures this.failExceptions == failExceptions && this.useLegacyIds == useLegacyIds
    {
      context := initial;
      trace := [];
      this.failExceptions := failExceptions;
      this.useLegacyIds := useLegacyIds;
    }

    method UpdateTestCase(f: TestResult -> TestResult)
      requires context.Valid() && context.HasTest()
      modifies this`context, this`trace
      ensures context == old(context).UpdateTestCase(f) && context.Valid()
      ensures trace == old(trace) + [TestUpdated]
    {
      context := context.UpdateTestCase(f);
      trace := trace + [TestUpdated];
    }

    method UpdateFixture(f: ExecutableItem -> ExecutableItem)
      requires context.Valid() && context.HasFixture()
      modifies this`context, this`trace
      ensures context == old(context).UpdateFixture(f) && context.Valid()
      ensures trace == old(trace) + [FixtureUpdated]
    {
      context := context.UpdateFixture(f);
      trace := trace + [FixtureUpdated];
    }

    method UpdateStep(f: ExecutableItem -> ExecutableItem)
      requires context.Valid() && context.HasStep()
      modifies this`context, this`trace
      ensures context == old(context).UpdateStep(f) && context.Valid()
      ensures trace == old(trace) + [StepUpdated]
    {
      context := context.UpdateStep(f);
      trace := trace + [StepUpdated];
    }

    method UpdateExecutableItem(f: ExecutableItem -> ExecutableItem)
      requires context.Valid() && context.HasTestOrFixture()
      modifies this`context, this`trace
      ensures context == old(context).UpdateExecutableItem(f) && context.Valid()
      ensures trace == old(trace) + [ItemUpdated]
    {
      context := context.UpdateExecutableItem(f);
      trace := trace + [ItemUpdated];
    }

    method StartStep(name: string)
      requires context.Valid() && context.HasTestOrFixture()
      modifies this`context, this`trace
      ensures context == old(context).StartStep(name) && context.Valid()
      ensures trace == old(trace) + [StepStarted(name)]
    {
      context := context.StartStep(name);
      trace := trace + [StepStarted(name)];
    }

    method StopStep(f: ExecutableItem -> ExecutableItem)
      requires context.Valid() && context.HasStep()
      modifies this`context, this`trace
      ensures context == old(context).StopStep(f) && context.Valid()
      ensures trace == old(trace) + [StepStopped(f(old(context).CurrentStepContainer()).status)]
    {
      trace := trace + [StepStopped(f(context.CurrentStepContainer()).status)];
      context := context.StopStep(f);
    }

    method StartFixture(phase: Phase, name: string)
      requires context.Valid() && context.HasContainer()
      modifies this`context, this`trace
      ensures context == old(context).StartFixture(phase, name) && context.Valid()
      ensures trace == old(trace) + [FixtureStarted(phase, name)]
    {
      context := context.StartFixture(phase, name);
      trace := trace + [FixtureStarted(phase, name)];
    }

    method StopFixture(f: ExecutableItem -> ExecutableItem)
      requires context.Valid() && context.HasFixture()
      modifies this`context, this`trace
      ensures context == old(context).StopFixture(f) && context.Valid()
      ensures trace == old(trace) + [FixtureStopped(f(Attach(old(context).fixture.value, old(context).steps)).status)]
    {
      trace := trace + [FixtureStopped(f(Attach(context.fixture.value, context.steps)).status)];
      context := context.StopFixture(f);
    }

    method StopTestCase(f: TestResult -> TestResult)
      requires context.Valid() && context.HasTest()
      modifies this`context, this`trace
      ensures context == old(context).StopTestCase(f) && context.Valid()
      ensures trace == old(trace) + [TestStopped(context.test.value.item.status)]
    {
      context := context.StopTestCase(f);
      trace := trace + [TestStopped(context.test.value.item.status)];
    }

    /** `Writer.Write(source, content)`. */
    method Write(source: string, content: Bytes)
      modifies this`trace
      ensures trace == old(trace) + [Written(source, content)]
    {
      trace := trace + [Written(source, content)];
    }

    /** Runs a parameter value through the type formatters (`FormatFunctions.Format`). */
    method Format<V>(format: V -> string, value: V) returns (text: string)
      modifies this`trace
      ensures text == format(value)
      ensures trace == old(trace) + [ValueFormatted]
    {
      text := format(value);
      trace := trace + [ValueFormatted];
    }

    /** Runs the user's delegate, whose outcome the caller already knows. */
    method RunDelegate()
      modifies this`trace
      ensures trace == old(trace) + [DelegateRan]
    {
      trace := trace + [DelegateRan];
    }
  }
}
