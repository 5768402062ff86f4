/**
 * `ExtendedApi`: the low-level fixture and step verbs, the lambda fixtures,
 * and the shared "start, run, resolve" machinery of lambda steps and
 * fixtures (`AllureApi.ExecuteAction`). Every public verb first checks that
 * its target is running and otherwise does nothing.
 */
module ExtendedApi {
  import opened Wrappers
  import opened Model
  import opened Tracker

  /** The registered assertion-style exception types; none when not configured. */
  function FailExceptions(configured: Option<seq<string>>): seq<string> {
    configured.GetOr([])
  }

  /**
   * `ResolveDetailedStatus`: passed without details when there is no error,
   * otherwise failed or broken by the error's type, with the error's details.
   */
  function ResolveDetailedStatus(failExceptions: seq<string>, error: Option<Error>): (r: (Status, Option<StatusDetails>))
    ensures r.0 == Passed <==> error.None?
    ensures error.None? ==> r.1 == None
    ensures error.Some? ==> r.1 == Some(ToStatusDetails(error.value)) && (r.0 == Failed || r.0 == Broken)
    ensures error.Some? ==>
      (r.0 == Failed <==> exists i :: 0 <= i < |error.value.typeChain| && error.value.typeChain[i] in failExceptions)
  {
    if error.None? then (Passed, None)
    else (ResolveErrorStatus(failExceptions, error.value), Some(ToStatusDetails(error.value)))
  }

  /**
   * The callback of the Pass/Fail/Break/Skip verbs: sets the status, and the
   * error's details when an error is given.
   */
  function Stamp(status: Status, error: Option<Error>): ItemUpdate {
    (item: ExecutableItem) =>
      if error.Some? then item.(status := status, statusDetails := Some(ToStatusDetails(error.value)))
      else item.(status := status)
  }

  /** The callback of `ResolveItem`: sets status and details from the resolved error (no details without one). */
  function Resolution(failExceptions: seq<string>, error: Option<Error>): ItemUpdate {
    var (status, details) := ResolveDetailedStatus(failExceptions, error);
    (item: ExecutableItem) => item.(status := status, statusDetails := details)
  }

  /** A verb's callback changes the status, and the details only when an error is given; nothing else. */
  lemma StampEffect(status: Status, error: Option<Error>, item: ExecutableItem)
    ensures Stamp(status, error)(item).status == status
    ensures Stamp(status, error)(item).statusDetails
         == if error.Some? then Some(ToStatusDetails(error.value)) else item.statusDetails
    ensures Stamp(status, error)(item).(status := item.status, statusDetails := item.statusDetails) == item
  {
  }

  /** Resolving an item changes exactly its status and details, to the resolved pair. */
  lemma ResolutionEffect(failExceptions: seq<string>, error: Option<Error>, item: ExecutableItem)
    ensures var r := Resolution(failExceptions, error)(item);
            (r.status, r.statusDetails) == ResolveDetailedStatus(failExceptions, error)
            && r.(status := item.status, statusDetails := item.statusDetails) == item
  {
  }

  /** The update callback of an overload, when it has one, as a trace entry. */
  function Updated(update: Option<ItemUpdate>, e: Event): seq<Event> {
    if update.Some? then [e] else []
  }

  /** The context after a fixture verb: the update callback (if any), then the stop callback. */
  function FixtureVerb(c: Context, update: Option<ItemUpdate>, stop: ItemUpdate): (r: Context)
    requires c.Valid()
    ensures r.Valid()
  {
    if !c.HasFixture() then c
    else (if update.Some? then c.UpdateFixture(update.value) else c).StopFixture(stop)
  }

  /** The context after a step verb: the update callback (if any), then the stop callback. */
  function StepVerb(c: Context, update: Option<ItemUpdate>, stop: ItemUpdate): (r: Context)
    requires c.Valid()
    ensures r.Valid()
  {
    if !c.HasStep() then c
    else (if update.Some? then c.UpdateStep(update.value) else c).StopStep(stop)
  }

  /**
   * A fixture verb records the fixture, with its open steps nested under it,
   * as the last fixture of its phase, with the verb's status whatever the
   * update callback set; the error's details when one is given. Without a
   * fixture the verb changes nothing.
   */
  lemma FixtureVerbRecords(c: Context, update: Option<ItemUpdate>, status: Status, error: Option<Error>)
    requires c.Valid()
    ensures !c.HasFixture() ==> FixtureVerb(c, update, Stamp(status, error)) == c
    ensures c.HasFixture() ==>
      var r := FixtureVerb(c, update, Stamp(status, error));
      var done := r.Finished(c.phase);
      !r.HasFixture() && !r.HasStep() && r.test == c.test
      && |done| == |c.Finished(c.phase)| + 1
      && done[..|done| - 1] == c.Finished(c.phase)
      && done[|done| - 1].status == status
      && (error.Some? ==> done[|done| - 1].statusDetails == Some(ToStatusDetails(error.value)))
      && done[|done| - 1].steps == Attach(if update.Some? then update.value(c.fixture.value) else c.fixture.value, c.steps).steps
  {
    if c.HasFixture() {
      var c1 := if update.Some? then c.UpdateFixture(update.value) else c;
      var fx := Attach(c1.fixture.value, c1.steps);
      StampEffect(status, error, fx);
    }
  }

  /**
   * A step verb closes the innermost step with the verb's status (and the
   * error's details when one is given) and makes it the last child of its
   * parent; the enclosing steps stay open. Without a step it changes nothing.
   */
  lemma StepVerbRecords(c: Context, update: Option<ItemUpdate>, status: Status, error: Option<Error>)
    requires c.Valid()
    ensures !c.HasStep() ==> StepVerb(c, update, Stamp(status, error)) == c
    ensures c.HasStep() ==>
      var r := StepVerb(c, update, Stamp(status, error));
      var parent := r.CurrentStepContainer();
      var top := c.steps[|c.steps| - 1];
      |r.steps| == |c.steps| - 1
      && parent.steps == c.ParentOfInnermost().steps + [parent.steps[|parent.steps| - 1]]
      && parent.steps[|parent.steps| - 1] == Stamp(status, error)(if update.Some? then update.value(top) else top)
      && parent.steps[|parent.steps| - 1].status == status
      && (error.Some? ==> parent.steps[|parent.steps| - 1].statusDetails == Some(ToStatusDetails(error.value)))
    ensures |c.steps| >= 2 ==>
      var r := StepVerb(c, update, Stamp(status, error));
      r.steps[..|r.steps| - 1] == c.steps[..|c.steps| - 2]
  {
    if c.HasStep() {
      var c1 := if update.Some? then c.UpdateStep(update.value) else c;
      var top := c1.steps[|c1.steps| - 1];
      StampEffect(status, error, top);
      assert c1.steps[..|c1.steps| - 1] == c.steps[..|c.steps| - 1];
      assert c1.ParentOfInnermost() == c.ParentOfInnermost();
      if |c.steps| >= 2 {
        assert c1.steps[..|c.steps| - 2] == c.steps[..|c.steps| - 2];
      }
    }
  }

  // Low-level fixtures API.

  method StartBeforeFixture(lc: Lifecycle, name: string)
    requires lc.context.Valid()
    modifies lc`context, lc`trace
    ensures lc.context.Valid()
    ensures old(lc.context).HasContainer() ==>
      lc.context == old(lc.context).StartFixture(Before, name) && lc.trace == old(lc.trace) + [FixtureStarted(Before, name)]
    ensures !old(lc.context).HasContainer() ==> lc.context == old(lc.context) && lc.trace == old(lc.trace)
  {
    if lc.context.HasContainer() {
      lc.StartFixture(Before, name);
    }
  }

  method StartAfterFixture(lc: Lifecycle, name: string)
    requires lc.context.Valid()
    modifies lc`context, lc`trace
    ensures lc.context.Valid()
    ensures old(lc.context).HasContainer() ==>
      lc.context == old(lc.context).StartFixture(After, name) && lc.trace == old(lc.trace) + [FixtureStarted(After, name)]
    ensures !old(lc.context).HasContainer() ==> lc.context == old(lc.context) && lc.trace == old(lc.trace)
  {
    if lc.context.HasContainer() {
      lc.StartFixture(After, name);
    }
  }

  /** The shape shared by the Pass/Fail/Break/Skip fixture overloads. */
  method FinishFixture(lc: Lifecycle, update: Option<ItemUpdate>, status: Status, error: Option<Error>)
    requires lc.context.Valid()
    modifies lc`context, lc`trace
    ensures lc.context.Valid() && lc.context == FixtureVerb(old(lc.context), update, Stamp(status, error))
    ensures old(lc.context).HasFixture() ==>
      lc.trace == old(lc.trace) + Updated(update, FixtureUpdated) + [FixtureStopped(status)]
    ensures !old(lc.context).HasFixture() ==> lc.trace == old(lc.trace)
  {
    if lc.context.HasFixture() {
      if update.Some? {
        lc.UpdateFixture(update.value);
      }
      lc.StopFixture(Stamp(status, error));
    }
  }

  method PassFixture(lc: Lifecycle, update: Option<ItemUpdate>)
    requires lc.context.Valid()
    modifies lc`context, lc`trace
    ensures lc.context.Valid() && lc.context == FixtureVerb(old(lc.context), update, Stamp(Passed, None))
    ensures old(lc.context).HasFixture() ==>
      lc.trace == old(lc.trace) + Updated(update, FixtureUpdated) + [FixtureStopped(Passed)]
    ensures !old(lc.context).HasFixture() ==> lc.trace == old(lc.trace)
  {
    FinishFixture(lc, update, Passed, None);
  }

  method FailFixture(lc: Lifecycle, update: Option<ItemUpdate>, error: Option<Error>)
    requires lc.context.Valid()
    modifies lc`context, lc`trace
    ensures lc.context.Valid() && lc.context == FixtureVerb(old(lc.context), update, Stamp(Failed, error))
    ensures old(lc.context).HasFixture() ==>
      lc.trace == old(lc.trace) + Updated(update, FixtureUpdated) + [FixtureStopped(Failed)]
    ensures !old(lc.context).HasFixture() ==> lc.trace == old(lc.trace)
  {
    FinishFixture(lc, update, Failed, error);
  }

  method BreakFixture(lc: Lifecycle, update: Option<ItemUpdate>, error: Option<Error>)
    requires lc.context.Valid()
    modifies lc`context, lc`trace
    ensures lc.context.Valid() && lc.context == FixtureVerb(old(lc.context), update, Stamp(Broken, error))
    ensures old(lc.context).HasFixture() ==>
      lc.trace == old(lc.trace) + Updated(update, FixtureUpdated) + [FixtureStopped(Broken)]
    ensures !old(lc.context).HasFixture() ==> lc.trace == old(lc.trace)
  {
    FinishFixture(lc, update, Broken, error);
  }

  method SkipFixture(lc: Lifecycle, update: Option<ItemUpdate>)
    requires lc.context.Valid()
    modifies lc`context, lc`trace
    ensures lc.context.Valid() && lc.context == FixtureVerb(old(lc.context), update, Stamp(Skipped, None))
    ensures old(lc.context).HasFixture() ==>
      lc.trace == old(lc.trace) + Updated(update, FixtureUpdated) + [FixtureStopped(Skipped)]
    ensures !old(lc.context).HasFixture() ==> lc.trace == old(lc.trace)
  {
    FinishFixture(lc, update, Skipped, None);
  }

  /** `ResolveFixtureInternal`: stops the running fixture with the resolved status and details. */
  method ResolveFixtureInternal(lc: Lifecycle, error: Option<Error>)
    requires lc.context.Valid() && lc.context.HasFixture()
    modifies lc`context, lc`trace
    ensures lc.context.Valid()
    ensures lc.context == old(lc.context).StopFixture(Resolution(FailExceptions(lc.failExceptions), error))
    ensures lc.trace == old(lc.trace) + [FixtureStopped(ResolveDetailedStatus(FailExceptions(lc.failExceptions), error).0)]
  {
    var stop := Resolution(FailExceptions(lc.failExceptions), error);
    ResolutionEffect(FailExceptions(lc.failExceptions), error, Attach(lc.context.fixture.value, lc.context.steps));
    lc.StopFixture(stop);
  }

  method ResolveFixture(lc: Lifecycle, error: Option<Error>)
    requires lc.context.Valid()
    modifies lc`context, lc`trace
    ensures lc.context.Valid()
    ensures lc.context == FixtureVerb(old(lc.context), None, Resolution(FailExceptions(lc.failExceptions), error))
    ensures old(lc.context).HasFixture() ==>
      lc.trace == old(lc.trace) + [FixtureStopped(ResolveDetailedStatus(FailExceptions(lc.failExceptions), error).0)]
    ensures !old(lc.context).HasFixture() ==> lc.trace == old(lc.trace)
  {
    if lc.context.HasFixture() {
      ResolveFixtureInternal(lc, error);
    }
  }

  // Low-level steps API.

  /** `StartStep`, with the optional callback applied right after the step starts. */
  method StartStep(lc: Lifecycle, name: string, update: Option<ItemUpdate>)
    requires lc.context.Valid()
    modifies lc`context, lc`trace
    ensures lc.context.Valid()
    ensures old(lc.context).HasTestOrFixture() ==>
      lc.context == (var s := old(lc.context).StartStep(name); if update.Some? then s.UpdateStep(update.value) else s)
      && lc.trace == old(lc.trace) + [StepStarted(name)] + Updated(update, StepUpdated)
    ensures !old(lc.context).HasTestOrFixture() ==> lc.context == old(lc.context) && lc.trace == old(lc.trace)
  {
    if lc.context.HasTestOrFixture() {
      lc.StartStep(name);
      if update.Some? {
        lc.UpdateStep(update.value);
      }
    }
  }

  /** The shape shared by the Pass/Fail/Break/Skip step overloads. */
  method FinishStep(lc: Lifecycle, update: Option<ItemUpdate>, status: Status, error: Option<Error>)
    requires lc.context.Valid()
    modifies lc`context, lc`trace
    ensures lc.context.Valid() && lc.context == StepVerb(old(lc.context), update, Stamp(status, error))
    ensures old(lc.context).HasStep() ==>
      lc.trace == old(lc.trace) + Updated(update, StepUpdated) + [StepStopped(status)]
    ensures !old(lc.context).HasStep() ==> lc.trace == old(lc.trace)
  {
    if lc.context.HasStep() {
      if update.Some? {
        lc.UpdateStep(update.value);
      }
      StampEffect(status, error, lc.context.CurrentStepContainer());
      lc.StopStep(Stamp(status, error));
    }
  }

  method PassStep(lc: Lifecycle, update: Option<ItemUpdate>)
    requires lc.context.Valid()
    modifies lc`context, lc`trace
    ensures lc.context.Valid() && lc.context == StepVerb(old(lc.context), update, Stamp(Passed, None))
    ensures old(lc.context).HasStep() ==>
      lc.trace == old(lc.trace) + Updated(update, StepUpdated) + [StepStopped(Passed)]
    ensures !old(lc.context).HasStep() ==> lc.trace == old(lc.trace)
  {
    FinishStep(lc, update, Passed, None);
  }

  method FailStep(lc: Lifecycle, update: Option<ItemUpdate>, error: Option<Error>)
    requires lc.context.Valid()
    modifies lc`context, lc`trace
    ensures lc.context.Valid() && lc.context == StepVerb(old(lc.context), update, Stamp(Failed, error))
    ensures old(lc.context).HasStep() ==>
      lc.trace == old(lc.trace) + Updated(update, StepUpdated) + [StepStopped(Failed)]
    ensures !old(lc.context).HasStep() ==> lc.trace == old(lc.trace)
  {
    FinishStep(lc, update, Failed, error);
  }

  method BreakStep(lc: Lifecycle, update: Option<ItemUpdate>, error: Option<Error>)
    requires lc.context.Valid()
    modifies lc`context, lc`trace
    ensures lc.context.Valid() && lc.context == StepVerb(old(lc.context), update, Stamp(Broken, error))
    ensures old(lc.context).HasStep() ==>
      lc.trace == old(lc.trace) + Updated(update, StepUpdated) + [StepStopped(Broken)]
    ensures !old(lc.context).HasStep() ==> lc.trace == old(lc.trace)
  {
    FinishStep(lc, update, Broken, error);
  }

  method SkipStep(lc: Lifecycle, update: Option<ItemUpdate>)
    requires lc.context.Valid()
    modifies lc`context, lc`trace
    ensures lc.context.Valid() && lc.context == StepVerb(old(lc.context), update, Stamp(Skipped, None))
    ensures old(lc.context).HasStep() ==>
      lc.trace == old(lc.trace) + Updated(update, StepUpdated) + [StepStopped(Skipped)]
    ensures !old(lc.context).HasStep() ==> lc.trace == old(lc.trace)
  {
    FinishStep(lc, update, Skipped, None);
  }

  method ResolveStep(lc: Lifecycle, error: Option<Error>)
    requires lc.context.Valid()
    modifies lc`context, lc`trace
    ensures lc.context.Valid()
    ensures lc.context == StepVerb(old(lc.context), None, Resolution(FailExceptions(lc.failExceptions), error))
    ensures old(lc.context).HasStep() ==>
      lc.trace == old(lc.trace) + [StepStopped(ResolveDetailedStatus(FailExceptions(lc.failExceptions), error).0)]
    ensures !old(lc.context).HasStep() ==> lc.trace == old(lc.trace)
  {
    if lc.context.HasStep() {
      ResolutionEffect(FailExceptions(lc.failExceptions), error, lc.context.CurrentStepContainer());
      lc.StopStep(Resolution(FailExceptions(lc.failExceptions), error));
    }
  }

  // Lambda steps and fixtures.

  /** What a lambda is wrapped in: a step, or a setup/teardown fixture. */
  datatype Wrapping = AsStep | AsFixture(phase: Phase)

  /**
   * The context after `ExecuteAction`: the step or fixture is started, the
   * user's code runs (without touching the context), and the item is resolved.
   * A step is started and resolved only inside a test or fixture.
   */
  function Executed(c: Context, name: string, how: Wrapping, stop: ItemUpdate): (r: Context)
    requires c.Valid()
    requires how.AsFixture? ==> c.HasContainer()
    ensures r.Valid()
  {
    match how
    case AsStep => if c.HasTestOrFixture() then c.StartStep(name).StopStep(stop) else c
    case AsFixture(p) => c.StartFixture(p, name).StopFixture(stop)
  }

  /** The calls `ExecuteAction` makes, in order: start, the user's code, resolve. */
  function ExecutedEvents(c: Context, name: string, how: Wrapping, status: Status): seq<Event> {
    match how
    case AsStep => if c.HasTestOrFixture() then [StepStarted(name), DelegateRan, StepStopped(status)] else [DelegateRan]
    case AsFixture(p) => [FixtureStarted(p, name), DelegateRan, FixtureStopped(status)]
  }

  /**
   * A lambda step inside a test or fixture amounts to adding one child to
   * the current item: a step with the lambda's name and the status and
   * details its outcome resolves to. The open steps stay open.
   */
  lemma ExecutedStepRecords(c: Context, name: string, failExceptions: seq<string>, error: Option<Error>)
    requires c.Valid() && c.HasTestOrFixture()
    ensures var (status, details) := ResolveDetailedStatus(failExceptions, error);
            var step := NewItem(name).(status := status, statusDetails := details);
            Executed(c, name, AsStep, Resolution(failExceptions, error))
              == c.UpdateExecutableItem((p: ExecutableItem) => AppendChild(p, step))
  {
    var s := c.StartStep(name);
    assert s.(steps := s.steps[..|s.steps| - 1]) == c;
  }

  /**
   * A lambda fixture leaves no fixture or step open and adds one fixture to
   * its phase: named after the lambda, with the status and details its
   * outcome resolves to and no children.
   */
  lemma ExecutedFixtureRecords(c: Context, name: string, p: Phase, failExceptions: seq<string>, error: Option<Error>)
    requires c.Valid() && c.HasContainer()
    ensures var r := Executed(c, name, AsFixture(p), Resolution(failExceptions, error));
            var (status, details) := ResolveDetailedStatus(failExceptions, error);
            !r.HasFixture() && !r.HasStep() && r.test == c.test
            && r.Finished(p) == c.Finished(p) + [NewItem(name).(status := status, statusDetails := details)]
  {
  }

  /**
   * `AllureApi.ExecuteAction`: starts the step or fixture, runs the user's
   * code, resolves the item from the outcome (in the `finally` part, so also
   * when the code throws) and passes the outcome on unchanged.
   */
  method ExecuteAction<T>(lc: Lifecycle, name: string, how: Wrapping, action: Completion<T>) returns (r: Completion<T>)
    requires lc.context.Valid()
    requires how.AsFixture? ==> lc.context.HasContainer()
    modifies lc`context, lc`trace
    ensures r == action && lc.context.Valid()
    ensures lc.context == Executed(old(lc.context), name, how, Resolution(FailExceptions(lc.failExceptions), action.ErrorOf()))
    ensures lc.trace == old(lc.trace)
      + ExecutedEvents(old(lc.context), name, how, ResolveDetailedStatus(FailExceptions(lc.failExceptions), action.ErrorOf()).0)
  {
    match how {
      case AsStep =>
        StartStep(lc, name, None);
      case AsFixture(p) =>
        lc.StartFixture(p, name);
    }
    lc.RunDelegate();
    match how {
      case AsStep =>
        ResolveStep(lc, action.ErrorOf());
      case AsFixture(_) =>
        ResolveFixtureInternal(lc, action.ErrorOf());
    }
    r := action;
  }

  /** `Before`: inside a container, runs the code as a setup fixture; otherwise just runs it. */
  method BeforeFixture<T>(lc: Lifecycle, name: string, action: Completion<T>) returns (r: Completion<T>)
    requires lc.context.Valid()
    modifies lc`context, lc`trace
    ensures r == action && lc.context.Valid()
    ensures old(lc.context).HasContainer() ==>
      lc.context == Executed(old(lc.context), name, AsFixture(Before), Resolution(FailExceptions(lc.failExceptions), action.ErrorOf()))
      && lc.trace == old(lc.trace)
        + ExecutedEvents(old(lc.context), name, AsFixture(Before), ResolveDetailedStatus(FailExceptions(lc.failExceptions), action.ErrorOf()).0)
    ensures !old(lc.context).HasContainer() ==> lc.context == old(lc.context) && lc.trace == old(lc.trace) + [DelegateRan]
  {
    if lc.context.HasContainer() {
      r := ExecuteAction(lc, name, AsFixture(Before), action);
    } else {
      lc.RunDelegate();
      r := action;
    }
  }

  /** `After`: inside a container, runs the code as a teardown fixture; otherwise just runs it. */
  method AfterFixture<T>(lc: Lifecycle, name: string, action: Completion<T>) returns (r: Completion<T>)
    requires lc.context.Valid()
    modifies lc`context, lc`trace
    ensures r == action && lc.context.Valid()
    ensures old(lc.context).HasContainer() ==>
      lc.context == Executed(old(lc.context), name, AsFixture(After), Resolution(FailExceptions(lc.failExceptions), action.ErrorOf()))
      && lc.trace == old(lc.trace)
        + ExecutedEvents(old(lc.context), name, AsFixture(After), ResolveDetailedStatus(FailExceptions(lc.failExceptions), action.ErrorOf()).0)
    ensures !old(lc.context).HasContainer() ==> lc.context == old(lc.context) && lc.trace == old(lc.trace) + [DelegateRan]
  {
    if lc.context.HasContainer() {
      r := ExecuteAction(lc, name, AsFixture(After), action);
    } else {
      lc.RunDelegate();
      r := action;
    }
  }
}
