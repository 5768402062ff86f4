# allure-csharp runtime facades, NUnit adapter helper and step aspect, in Dafny

This project models the part of allure-csharp that sits between test code and
the Allure report:

- `AllureApi` is the facade test authors call. It renames the running test,
  fixture or step. It adds labels, links, parameters, attachments and screen
  diffs. It also runs lambdas as steps.
- `ExtendedApi` holds the low-level fixture and step verbs (start, pass, fail,
  break, skip, resolve) and the lambda fixtures `Before` and `After`.
- `AllureNUnitHelper` turns an NUnit test into an Allure test result. It
  classifies the outcome, builds the status details and builds deterministic
  full names with locale-independent literals. It splits namespaces from
  class names, assigns identifiers and walks up the NUnit test tree.
- `AllureStepAspect` is the advice woven around methods marked as steps or as
  setup/teardown fixtures.

Every facade operation first checks that its target is running. Without a
target it changes nothing, and a lambda simply runs.

Layout:

- `wrappers.dfy`: `Option` and `Result`.
- `model.dfy`: the result records. These are `ExecutableItem` (the common part
  of steps, fixtures and tests), `TestResult`, `Container`, `Label`, `Link`,
  `Parameter` and `Attachment`.
  - It also holds a captured exception, `Error`, which carries its type chain,
    message and stack trace.
  - It also holds the label builders and the invariant decimal rendering of
    integers.
- `tracker.dfy`: the tracker the facades drive, `AllureLifecycle` over its
  `AllureContext`.
  - The context is an immutable value `Context`. It holds the container, the
    test, the fixture with its phase, and the stack of open steps.
  - Its transitions are functions with their own contracts.
  - The class `Lifecycle` holds the current context, the configuration (fail
    exceptions, legacy ids) and a `trace`. The trace records every call made
    into the tracker, the results writer, the type formatters and the user's
    code.
  - Each facade method is proved to leave `context` equal to a specification
    function of the old context, and `trace` equal to the old trace plus the
    calls it made.
- `extended_api.dfy`, `allure_api.dfy`, `nunit_helper.dfy` and
  `step_aspect.dfy`: one module per core file.

The user's code is a `Completion<T>`: it either returned a value or threw an
`Error`. Callbacks such as `Action<FixtureResult>` are Dafny function values.
Collaborators whose code is not part of this model are parameters of the
operations that use them:

- the generated UUIDs and GUIDs;
- `FormatFunctions.Format` and the type formatters;
- `IdFunctions.GetTypeId` and `GetMethodId`;
- `ModelFunctions.EnsureSuites`;
- UTF-8 encoding;
- `AllureStepParameterHelper`.

`AllureLifecycle`, `AllureContext` and `ModelFunctions` are not part of this
model. The `Tracker` module is an abstract stand-in for the first two, and
`Model.ResolveErrorStatus` is the model's stand-in for
`ModelFunctions.ResolveErrorStatus`. Together they carry the behaviour the
facades rely on:

- a step started in a test or fixture becomes the innermost open step;
- stopping a step makes it the last child of its parent;
- stopping a fixture records it, with its open steps nested under it, among
  the container's setups or teardowns;
- an error's status is failed when a type in its chain is registered as a
  fail exception, and broken otherwise.

## Model

| member | source | states |
|---|---|---|
| ExtendedApi.ResolveDetailedStatus | Allure.Net.Commons/ExtendedApi.cs:802-810 | passed with no details exactly when there is no error; otherwise the error's details, and failed exactly when some type in the error's type chain is a registered fail exception, broken otherwise |
| ExtendedApi.StampEffect | Allure.Net.Commons/ExtendedApi.cs:684-755 | the callback of a pass/fail/break/skip verb sets the verb's status, sets the error's details only when an error is given, and changes nothing else |
| ExtendedApi.ResolutionEffect | Allure.Net.Commons/ExtendedApi.cs:789-800 | `ResolveItem`'s callback sets exactly the status and details that `ResolveDetailedStatus` gives and changes nothing else |
| ExtendedApi.FixtureVerbRecords | Allure.Net.Commons/ExtendedApi.cs:69-280 | without a fixture a fixture verb changes nothing. With one, the fixture goes last into its phase's fixtures, the earlier ones are kept, and its open steps are nested under it. It carries the verb's status whatever the update callback set, and the error's details when an error is given. No fixture or step stays open and the test is untouched |
| ExtendedApi.StepVerbRecords | Allure.Net.Commons/ExtendedApi.cs:328-500 | without a step a step verb changes nothing. With one, the innermost step, after the optional update, is stamped with the verb's status (and the error's details when given). It becomes the last new child of its parent. The enclosing steps stay open and, except for that parent, unchanged |
| ExtendedApi.StartBeforeFixture | Allure.Net.Commons/ExtendedApi.cs:40-46 | in a container, starts a setup fixture with that name and drops the unfinished steps; without a container nothing changes and nothing is called |
| ExtendedApi.StartAfterFixture | Allure.Net.Commons/ExtendedApi.cs:55-61 | the same for a teardown fixture |
| ExtendedApi.PassFixture | Allure.Net.Commons/ExtendedApi.cs:69-93 | both overloads: with a fixture, the optional update callback runs, then the fixture stops as passed; the calls made are exactly these; without a fixture, nothing |
| ExtendedApi.FailFixture | Allure.Net.Commons/ExtendedApi.cs:101-162 | the four overloads: optional callback, then the fixture stops as failed with the error's details when an error is given; nothing without a fixture |
| ExtendedApi.BreakFixture | Allure.Net.Commons/ExtendedApi.cs:170-234 | the four overloads, with status broken |
| ExtendedApi.SkipFixture | Allure.Net.Commons/ExtendedApi.cs:243-268 | both overloads, with status skipped |
| ExtendedApi.ResolveFixtureInternal | Allure.Net.Commons/ExtendedApi.cs:717-718 | stops the fixture with `Resolution`'s callback, using the configured fail exceptions (none when not configured); the recorded status is the resolved one |
| ExtendedApi.ResolveFixture | Allure.Net.Commons/ExtendedApi.cs:282-288 | with a fixture, stops it with the status and details resolved from the error; nothing without a fixture |
| ExtendedApi.StartStep | Allure.Net.Commons/ExtendedApi.cs:299-322 | both overloads: in a test or fixture, a new step becomes the innermost one, and the callback (if any) is applied to it right after; otherwise nothing |
| ExtendedApi.PassStep | Allure.Net.Commons/ExtendedApi.cs:328-350 | with a step, the optional callback runs on the innermost step, then it stops as passed; nothing without a step |
| ExtendedApi.FailStep | Allure.Net.Commons/ExtendedApi.cs:356-411 | the four overloads, status failed and the error's details when given |
| ExtendedApi.BreakStep | Allure.Net.Commons/ExtendedApi.cs:417-472 | the four overloads, status broken and the error's details when given |
| ExtendedApi.SkipStep | Allure.Net.Commons/ExtendedApi.cs:478-500 | both overloads, status skipped |
| ExtendedApi.ResolveStep | Allure.Net.Commons/ExtendedApi.cs:514-520 | with a step, stops it with the status and details resolved from the error; nothing without a step |
| ExtendedApi.ExecutedStepRecords | Allure.Net.Commons/AllureApi.cs:769-793 | starting a step, running the code and resolving the step amounts to appending to the current item one child step. The child has the lambda's name and the status and details resolved from the outcome. The open steps stay open |
| ExtendedApi.ExecutedFixtureRecords | Allure.Net.Commons/ExtendedApi.cs:760-776 | a lambda fixture leaves no fixture or step open and appends one fixture to its phase's fixtures. The fixture has the lambda's name, the resolved status and details, and no children |
| ExtendedApi.ExecuteAction | Allure.Net.Commons/AllureApi.cs:769-793 | starts, runs the code, and resolves from the outcome, also when the code throws. The outcome passes through unchanged and the calls happen in that order |
| ExtendedApi.BeforeFixture | Allure.Net.Commons/ExtendedApi.cs:532-604 | in a container the code runs as a setup fixture (as `ExecuteAction`); otherwise it just runs; the outcome passes through |
| ExtendedApi.AfterFixture | Allure.Net.Commons/ExtendedApi.cs:606-668 | the same with a teardown fixture |
| AllureApi.SetTestName | Allure.Net.Commons/AllureApi.cs:44-50 | with a test, its name becomes the new one through one test update; otherwise nothing |
| AllureApi.SetFixtureName | Allure.Net.Commons/AllureApi.cs:57-63 | with a fixture, its name becomes the new one; otherwise nothing |
| AllureApi.SetStepName | Allure.Net.Commons/AllureApi.cs:70-76 | with a step, the innermost step's name becomes the new one; otherwise nothing |
| AllureApi.SetDescription | Allure.Net.Commons/AllureApi.cs:83-89 | with a test, its description becomes the given text |
| AllureApi.SetDescriptionHtml | Allure.Net.Commons/AllureApi.cs:98-104 | with a test, its HTML description becomes the given text |
| AllureApi.AddLabels | Allure.Net.Commons/AllureApi.cs:111-117 | with a test, the labels are appended in order |
| AllureApi.AddLabel | Allure.Net.Commons/AllureApi.cs:125-139 | both overloads: with a test, the label is appended |
| AllureApi.WithoutNameAppend | Allure.Net.Commons/AllureApi.cs:716-721 | removing the labels of a name distributes over concatenation |
| AllureApi.WithoutNameIdempotent | Allure.Net.Commons/AllureApi.cs:716-721 | removing the labels of a name twice is removing them once |
| AllureApi.WithLabel | Allure.Net.Commons/AllureApi.cs:716-721 | the new label ends the list. Every label of its name is the new one, every label of another name is kept, and nothing else appears |
| AllureApi.WithLabelSingle | Allure.Net.Commons/AllureApi.cs:716-721 | after `SetLabel` the new label is the only one of its name |
| AllureApi.WithLabelKeepsOthers | Allure.Net.Commons/AllureApi.cs:716-721 | `SetLabel` keeps the labels of other names and their order |
| AllureApi.WithLabelOverrides | Allure.Net.Commons/AllureApi.cs:716-721 | of two `SetLabel` calls with the same name, the second wins outright |
| AllureApi.SetLabel | Allure.Net.Commons/AllureApi.cs:716-721 | with a test, its labels become `WithLabel` of the old ones |
| AllureApi.SetSeverity | Allure.Net.Commons/AllureApi.cs:146-153 | with a test, sets the `severity` label (one of that name) |
| AllureApi.SetOwner | Allure.Net.Commons/AllureApi.cs:161-168 | with a test, sets the `owner` label |
| AllureApi.SetAllureId | Allure.Net.Commons/AllureApi.cs:176-183 | with a test, sets the `ALLURE_ID` label to the id's decimal text |
| AllureApi.TagLabels | Allure.Net.Commons/AllureApi.cs:191-194 | one `tag` label per tag, in order |
| AllureApi.AddTags | Allure.Net.Commons/AllureApi.cs:191-194 | with a test, the old labels are kept and one `tag` label per tag follows, in order |
| AllureApi.AddParentSuite | Allure.Net.Commons/AllureApi.cs:205-206 | appends a `parentSuite` label |
| AllureApi.AddSuite | Allure.Net.Commons/AllureApi.cs:215-216 | appends a `suite` label |
| AllureApi.AddSubSuite | Allure.Net.Commons/AllureApi.cs:225-226 | appends a `subSuite` label |
| AllureApi.AddEpic | Allure.Net.Commons/AllureApi.cs:239-240 | appends an `epic` label |
| AllureApi.AddFeature | Allure.Net.Commons/AllureApi.cs:249-250 | appends a `feature` label |
| AllureApi.AddStory | Allure.Net.Commons/AllureApi.cs:259-260 | appends a `story` label |
| AllureApi.AddLinks | Allure.Net.Commons/AllureApi.cs:309-315 | with a test, the links are appended in order |
| AllureApi.AddLink | Allure.Net.Commons/AllureApi.cs:273-302 | the three overloads: one link with the given (or unset) name and type |
| AllureApi.AddIssue | Allure.Net.Commons/AllureApi.cs:322-334 | one link of type `issue` |
| AllureApi.AddTmsItem | Allure.Net.Commons/AllureApi.cs:341-353 | one link of type `tms` |
| AllureApi.ExecuteStep | Allure.Net.Commons/AllureApi.cs:726-732 | `ExecuteAction` wrapping the code as a step |
| AllureApi.Step | Allure.Net.Commons/AllureApi.cs:385-413 | in a test or fixture, exactly one child step is appended to the current item. It has the step's name and the status and details resolved from the outcome, and the calls are start, user code, stop. Otherwise the code just runs. The outcome passes through unchanged |
| AllureApi.EmptyStep | Allure.Net.Commons/AllureApi.cs:364-370 | `Step(name)`: in a test or fixture, one passed child step with that name; otherwise nothing |
| AllureApi.AddAttachmentInternal | Allure.Net.Commons/AllureApi.cs:796-816 | the content is written under `<uuid>-attachment<extension>`, then exactly one attachment with that source is appended to the current step container |
| AllureApi.AddAttachment | Allure.Net.Commons/AllureApi.cs:492-502 | in a test or fixture, as `AddAttachmentInternal`; otherwise nothing is written or changed |
| AllureApi.AddAttachmentFromFile | Allure.Net.Commons/AllureApi.cs:465-526 | the two path overloads: a missing name falls back to the file's name; otherwise as `AddAttachment` |
| AllureApi.CountDiffsAppend | Allure.Net.Commons/AllureApi.cs:823-827 | appending a screen diff raises the diff count by one, and appending anything else leaves it |
| Model.DecimalRoundTrip | Allure.Net.Commons/AllureApi.cs:823-827 | reading back the decimal text of a number gives the number |
| Model.NatToStringInjective | Allure.Net.Commons/AllureApi.cs:823-827 | different numbers have different decimal texts |
| AllureApi.DiffNamesDistinct | Allure.Net.Commons/AllureApi.cs:823-827 | screen diffs with different ordinals get different `diff-N` names |
| AllureApi.AddScreenDiff | Allure.Net.Commons/AllureApi.cs:536-568 | in a test or fixture, the diff document is attached under the next `diff-N` name with the diff media type and a `.json` source, and the item's diff count rises by one; otherwise nothing |
| AllureApi.AddTestParameter | Allure.Net.Commons/AllureApi.cs:587-687 | the four value overloads: with a test, the value is formatted (and only then) and one parameter is appended, with mode and exclusion as given or unset; otherwise nothing is called |
| AllureApi.AddParameter | Allure.Net.Commons/AllureApi.cs:699-712 | with a test, the parameter is appended |
| AllureNUnitHelper.HasAssertionError | Allure.NUnit/Core/AllureNUnitHelper.cs:182-183 | true exactly when some recorded assertion ended in an error |
| AllureNUnitHelper.IsBroken | Allure.NUnit/Core/AllureNUnitHelper.cs:180-183 | true exactly when nothing was asserted or one of the assertions ended in an error |
| AllureNUnitHelper.GetNUnitStatus | Allure.NUnit/Core/AllureNUnitHelper.cs:132-145 | broken exactly for inconclusive, warning, or a failure with no assertions or an errored one. Failed exactly for a failure whose assertions all ended without error, skipped exactly for skipped and passed exactly for passed. Never no-status |
| AllureNUnitHelper.TestStatusDetails | Allure.NUnit/Core/AllureNUnitHelper.cs:76-85 | no details exactly when both message and stack trace are blank. Otherwise the trace as reported, and the message, or `Test <status>` when the message is blank |
| AllureNUnitHelper.InitFailExceptions | Allure.NUnit/Core/AllureNUnitHelper.cs:35-40 | a configured fail-exception list is kept; a missing one becomes NUnit's three assertion exceptions |
| AllureNUnitHelper.NUnitAssertionsFail | Allure.NUnit/Core/AllureNUnitHelper.cs:35-40 | with those defaults, an error resolves to failed exactly when its type chain holds one of NUnit's assertion exceptions |
| AllureNUnitHelper.Chain | Allure.NUnit/Core/AllureNUnitHelper.cs:154-162 | the chain of a test is non-empty and ends with the test |
| AllureNUnitHelper.ChainLinks | Allure.NUnit/Core/AllureNUnitHelper.cs:154-162 | the chain starts at a root and each element is the parent of the next |
| AllureNUnitHelper.EnumerateTestElements | Allure.NUnit/Core/AllureNUnitHelper.cs:154-162 | the stack walk yields exactly the chain, root first |
| AllureNUnitHelper.EnumerateTitlePathElements | Allure.NUnit/Core/AllureNUnitHelper.cs:164-169 | one title per chain element except the root |
| AllureNUnitHelper.TitlePathExtends | Allure.NUnit/Core/AllureNUnitHelper.cs:164-169 | a root has an empty title path. Any other node's path is its parent's path followed by its own title, which is the assembly name for an assembly when known and the node's name otherwise |
| AllureNUnitHelper.NearestFixtureAbsent | Allure.NUnit/Core/AllureNUnitHelper.cs:330-348 | there is no fixture to find exactly when no node of the chain is a fixture |
| AllureNUnitHelper.NearestFixtureIsNearest | Allure.NUnit/Core/AllureNUnitHelper.cs:330-348 | the fixture found is a fixture of the chain and no node below it is one |
| AllureNUnitHelper.GetTestFixture | Allure.NUnit/Core/AllureNUnitHelper.cs:330-348 | the walk returns the nearest fixture, or fails with `InvalidOperationException` and its message when there is none |
| AllureNUnitHelper.PropertiesFromSucceeds | Allure.NUnit/Core/AllureNUnitHelper.cs:405-429 | collecting a property's values succeeds exactly when an exact `TestSuite` or `TestAssembly` lies on the chain; otherwise the walk dereferences null |
| AllureNUnitHelper.GetTestProperties | Allure.NUnit/Core/AllureNUnitHelper.cs:405-429 | the loop collects the property's values bottom-up, as `PropertiesFrom` defines, failing as it does |
| AllureNUnitHelper.FormatChar | Allure.NUnit/Core/AllureNUnitHelper.cs:238-242 | the formatter's literal with its outer quotes replaced by single quotes, its inside unchanged |
| AllureNUnitHelper.FormatPrimitive | Allure.NUnit/Core/AllureNUnitHelper.cs:22-28 | the invariant text followed by `u` for uint, `L` for long, `UL` for ulong and `f` for float; any other kind is the text alone |
| AllureNUnitHelper.FormatTestFixtureArg | Allure.NUnit/Core/AllureNUnitHelper.cs:225-236 | null is `null`, a string is the formatter's text, a type is its id in angle brackets, an array is bracketed, a char is the formatter's literal between single quotes, and anything else is the primitive's suffixed text |
| AllureNUnitHelper.JoinCommasRoundTrip | Allure.NUnit/Core/AllureNUnitHelper.cs:235-236 | joining comma-free pieces with commas and splitting the result at the commas gives back the pieces |
| AllureNUnitHelper.ArrayElementsRecoverable | Allure.NUnit/Core/AllureNUnitHelper.cs:235-236 | when no element's rendering holds a comma, the text between an array's brackets splits back into the elements' renderings, one per element and in order |
| AllureNUnitHelper.ArgsPart | Allure.NUnit/Core/AllureNUnitHelper.cs:209-211 | empty exactly when the fixture has no arguments, otherwise parenthesised around the comma-joined argument renderings (see `ArgsRecoverable`) |
| AllureNUnitHelper.ArgsRecoverable | Allure.NUnit/Core/AllureNUnitHelper.cs:209-211 | the parenthesised part holds the formatted arguments joined by commas: when no argument's rendering holds a comma, the text between the parentheses splits back into the renderings, one per argument and in order |
| AllureNUnitHelper.CreateFullName | Allure.NUnit/Core/AllureNUnitHelper.cs:202-216 | fails exactly when the test has no fixture. Otherwise it is the class id, the fixture's arguments part, a dot and the method id, and without arguments just the class id, a dot and the method id |
| AllureNUnitHelper.IndexOf | Allure.NUnit/Core/AllureNUnitHelper.cs:324 | -1 exactly when the character is absent, else its first position |
| AllureNUnitHelper.LastIndexOf | Allure.NUnit/Core/AllureNUnitHelper.cs:303 | -1 exactly when the character is absent, else its last position |
| AllureNUnitHelper.StripTypeArgs | Allure.NUnit/Core/AllureNUnitHelper.cs:322-328 | a prefix of the name without `<`, ending right before the first `<` when there is one |
| AllureNUnitHelper.SplitRoundTrip | Allure.NUnit/Core/AllureNUnitHelper.cs:301-320 | namespace, a dot and class name give back the full name. Without a namespace the class name is the full name, and there is no namespace exactly when the name has no dot before its type arguments. The class name has no such dot |
| AllureNUnitHelper.StrippedSuffix | Allure.NUnit/Core/AllureNUnitHelper.cs:322-328 | stripping a suffix cut inside the plain part gives the matching suffix of the stripped name |
| AllureNUnitHelper.CreateTestContainer | Allure.NUnit/Core/AllureNUnitHelper.cs:171-178 | named after the test's full name, with no fixtures; uuid `tc-<id>` with legacy ids, a fresh one otherwise |
| AllureNUnitHelper.SetLegacyIdentifiers | Allure.NUnit/Core/AllureNUnitHelper.cs:252-261 | uuid `<guid>-tr-<id>`, full name and history id the test's full name, nothing else changed |
| AllureNUnitHelper.SetIdentifiers | Allure.NUnit/Core/AllureNUnitHelper.cs:185-195 | legacy identifiers when configured. Otherwise a fresh uuid and the deterministic full name, failing exactly when the test has no fixture |
| AllureNUnitHelper.NUnitParameters | Allure.NUnit/Core/AllureNUnitHelper.cs:277-283 | the parameter names zipped with the arguments, the shorter list deciding, each value formatted |
| AllureNUnitHelper.AddTestParametersFromNUnit | Allure.NUnit/Core/AllureNUnitHelper.cs:263-275 | the loop appends exactly those parameters, in order, and keeps the earlier ones |
| AllureNUnitHelper.ResolveDisplayName | Allure.NUnit/Core/AllureNUnitHelper.cs:147-152 | the parent's name when the parent is a parameterized method suite, otherwise the test's own name |
| AllureNUnitHelper.CreateTestResult | Allure.NUnit/Core/AllureNUnitHelper.cs:103-127 | fails exactly when the test has no fixture. Otherwise it sets the display name and the title path. The labels are thread/host/language, framework, package, method and class, then environment and global labels. It also sets the NUnit parameters, no status, no steps and no links. With legacy ids the uuid is `<guid>-tr-<id>` and the full name and history id are the test's full name. Otherwise the uuid is the given one, the full name is `CreateFullName`'s and there is no history id |
| AllureNUnitHelper.AppendLinesText | Allure.NUnit/Core/AllureNUnitHelper.cs:369-373 | after at least one line the description is the old one (null read as empty) followed by each line and a newline |
| AllureNUnitHelper.OwnerLabels | Allure.NUnit/Core/AllureNUnitHelper.cs:375-379 | one `owner` label per author, in order |
| AllureNUnitHelper.AppendDescriptionLines | Allure.NUnit/Core/AllureNUnitHelper.cs:369-373 | one test update per line, leaving the description with the lines appended |
| AllureNUnitHelper.AddTestLabels | Allure.NUnit/Core/AllureNUnitHelper.cs:375-385 | one test update per label, each appending that label |
| AllureNUnitHelper.UpdateTestDataFromNUnitProperties | Allure.NUnit/Core/AllureNUnitHelper.cs:367-386 | succeeds exactly when the walks reach a suite. Then the description lines, owner labels and tag labels are taken over, with one test update each. Otherwise nothing changes |
| AllureNUnitHelper.ApplyDefaultSuiteHierarchy | Allure.NUnit/Core/AllureNUnitHelper.cs:350-365 | fails exactly without a fixture. Otherwise one test update applies the suites from the assembly and from the fixture's namespace and class name |
| AllureNUnitHelper.AddConsoleOutputAttachment | Allure.NUnit/Core/AllureNUnitHelper.cs:388-403 | a non-blank output, in a test or fixture, becomes a `Console Output` `text/plain` `.txt` attachment of its UTF-8 bytes; otherwise nothing |
| AllureNUnitHelper.ConsoleAttached | Allure.NUnit/Core/AllureNUnitHelper.cs:388-403 | attaching the console output keeps the context well formed and keeps whether a test and a fixture are active |
| AllureNUnitHelper.StopWithOutcome | Allure.NUnit/Core/AllureNUnitHelper.cs:71-93 | the console output is attached (nothing when it is blank), then the test is stopped with NUnit's classified status and details. The calls are the attachment's write and update, then the test's stop with that status |
| AllureNUnitHelper.StoppedWithOutcome | Allure.NUnit/Core/AllureNUnitHelper.cs:71-93 | the stopped test has NUnit's status and details and keeps its ids, labels, links, title path, name, description and parameters. The console output joins the test's own attachments when no step or fixture is open; no step stays open without a fixture |
| AllureNUnitHelper.TakeOverTestData | Allure.NUnit/Core/AllureNUnitHelper.cs:69-70 | succeeds exactly when the walks reach a suite and the test has a fixture. Then the test has the NUnit properties and then the default suites applied. Without a suite nothing changes; without a fixture only the properties are applied. It only appends to the trace |
| AllureNUnitHelper.PropertiesTakenOver | Allure.NUnit/Core/AllureNUnitHelper.cs:367-386 | taking over the NUnit properties keeps the test's uuid, title path, links and status |
| AllureNUnitHelper.StopTestCase | Allure.NUnit/Core/AllureNUnitHelper.cs:67-93 | succeeds exactly when the walks reach a suite and the test has a fixture. Then the context is the taken-over test stopped with its outcome (console output attached first), so the test ends with the classified status and details, and the last call is the stop with that status. A failed walk leaves the state `TakeOverTestData` leaves |
| AllureStepAspect.Lazy.constructor | Allure.Net.Commons/Steps/AllureStepAspect.cs:225-239 | a lazy value starts uncomputed, with its factory not yet run |
| AllureStepAspect.Lazy.Value | Allure.Net.Commons/Steps/AllureStepAspect.cs:91-95 | gives the factory's value and runs the factory on first use only |
| AllureStepAspect.FixturePart | Allure.Net.Commons/Steps/AllureStepAspect.cs:52-63 | in a container a setup or teardown method starts a fixture with the name and no open steps, in the teardown phase when it is marked as both. Otherwise nothing changes |
| AllureStepAspect.StartFixtureFor | Allure.Net.Commons/Steps/AllureStepAspect.cs:52-63 | starts a setup, then a teardown fixture, as the attributes ask |
| AllureStepAspect.StartStepFor | Allure.Net.Commons/Steps/AllureStepAspect.cs:28-34 | a step method in a test or fixture starts a step carrying the call's parameters; otherwise nothing |
| AllureStepAspect.BeforeTargetInvokeFixture | Allure.Net.Commons/Steps/AllureStepAspect.cs:89-92 | in a container, computes the name and starts the fixture part |
| AllureStepAspect.BeforeTargetInvokeStep | Allure.Net.Commons/Steps/AllureStepAspect.cs:93-96 | in a test or fixture, computes name and parameters and starts the step part |
| AllureStepAspect.BeforeTargetInvoke | Allure.Net.Commons/Steps/AllureStepAspect.cs:83-97 | the context becomes `Started` and the calls are the fixture start(s), then the step start. The name is computed exactly when a container is active or a test or fixture is active after the fixture part, and the parameters exactly in the latter case |
| AllureStepAspect.AfterTargetInvoke | Allure.Net.Commons/Steps/AllureStepAspect.cs:99-103 | passes the step, then the fixture, that the attributes name |
| AllureStepAspect.OnTargetInvokeException | Allure.Net.Commons/Steps/AllureStepAspect.cs:105-109 | resolves the step, then the fixture, from the exception |
| AllureStepAspect.Wrap | Allure.Net.Commons/Steps/AllureStepAspect.cs:113-199 | before-advice, target, then the after-advice or, when the target throws, the exception advice. The outcome is passed on. With nothing running, neither the name nor the parameters are computed |
| AllureStepAspect.StepMethodRecords | Allure.Net.Commons/Steps/AllureStepAspect.cs:113-134 | a step method in a test or fixture appends to the current item exactly one child step. It has the computed name and parameters and the status and details its outcome resolves to. The open steps stay open |
| AllureStepAspect.FixtureMethodRecords | Allure.Net.Commons/Steps/AllureStepAspect.cs:113-134 | a setup or teardown method in a container leaves no fixture or step open. It appends one fixture named after the method, with the resolved status and details, to the phase its attribute names |
| AllureStepAspect.SelectHandler | Allure.Net.Commons/Steps/AllureStepAspect.cs:241-262 | tasks are awaited: `Task` itself without a result, and other tasks with their first generic argument or `VoidTaskResult`. `void` is wrapped as void, and every other type synchronously with that type |
| AllureStepAspect.Around | Allure.Net.Commons/Steps/AllureStepAspect.cs:215-263 | the step name pattern is the attribute's name, else the method's. The handler is the one for the return type and the outcome passes through. The name and the parameters are each computed at most once, and only when the advice needs them |

## Left out

- `PrepareTestContext`, `StartTestContainer`, `StopTestContainer` and `IsSelectedByTestPlan` of `AllureNUnitHelper`: they hand results to `AllureLifecycle` and the test plan, which are not part of this model. `CreateTestContainer`, `CreateTestResult` and `StopTestCase` are modelled.
- `WriteTestCase` at the end of `StopTestCase`: writing the result file is I/O.
- `UpdateTestDataFromAllureAttributes` and `IterateAllAllureAttribites`: attribute scanning is reflection. Only the fixture lookup they perform, which can fail, is kept in `CreateTestResult`.
- `CreateTestResult`: the thread, host and language labels and the environment and global labels are parameters. They come from the process, the host and environment variables.
- `GetNUnitStatus`: the `_ => none` arm is left out because NUnit's `TestStatus` has exactly the five members modelled.
- `UpdateTestDataFromNUnitProperties`: the three property walks are done before the updates. The walks only read the tree and fail together, so the result and the updates are the same as in the source.
- The async overloads: `Step(name, Func<Task>)`, `Step<T>(name, Func<Task<T>>)`, `Before`/`After` with tasks, `ExecuteStepAsync`, `ExecuteActionAsync` and `ExecuteFixtureAsync`. They follow the same start, run, resolve order as their synchronous versions and are modelled by them. Await scheduling and `AsyncLocal` flow are not modelled.
- `AllureStepAspect.Wrap` stands for `WrapSync`, `WrapSyncVoid`, `WrapAsync` and `WrapAsyncGeneric`, which differ only in how the target's value is awaited and cast.
- `AllureStepAspect.Wrap`: an exception thrown by the advice itself, or by the lazy step name or parameters, is not modelled. Only the target's exception is.
- `AllureStepAspect.Around`: `metadata`, `args` and the type formatters reach the step name and parameter helpers, which are not part of this model. They are a `StepDescriber` parameter.
- `AllureApi.AddAttachmentFromFile`: reading the file, `Path.GetFileName`, `Path.GetExtension` and `MimeTypesMap` are parameters (file system and MIME table).
- `AllureApi.AddScreenDiff`: the JSON document of the three Base64 images is a parameter function. The path overload's file reads are left out.
- `AllureApi.AddTestParameter`: `FormatFunctions.Format` and the type formatters are a parameter function.
- `AllureNUnitHelper.CreateFullName`: `IdFunctions.GetTypeId`, `GetMethodId` and `FormatFunctions.Format` are parameters. `Convert.ToString` in the invariant culture is the primitive's given text.
- `AllureNUnitHelper.FormatChar` (and through it `FormatTestFixtureArg`, `ArgsPart` and `CreateFullName`): the char formatter is required to return at least two characters, its quotes. A shorter literal, on which `Substring(1, Length - 2)` would throw, is not modelled; the real formatter always quotes a char.
- `AllureNUnitHelper.SetIdentifiers`, `SetLegacyIdentifiers` and `CreateTestContainer`: the generated UUID and GUID are parameters.
- `CurrentLifecycle` and its setter: the facades act on the `Lifecycle` they are given.
- The user's code is assumed not to call the facades itself. Nested user-level steps inside a lambda are not modelled.
- The tracker keeps at most one container, and a fixture replaces any earlier unfinished one. The container stack and fixture bookkeeping of `AllureLifecycle` are not part of this model.
- `AllureXunitPatcher`, `AllureXunitConfiguration` and `NotNullWhen` are outside the modelled core.
