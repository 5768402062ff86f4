/**
 * The Allure result model: the records a test run produces (test results,
 * fixtures, steps, attachments, labels, links, parameters, status details),
 * the exception value the adapters capture, and the small functions of
 * `ModelFunctions` and `Label` that the facade relies on.
 */
module Model {
  import opened Wrappers

  type Bytes = seq<bv8>

  /** Allure's `Status`; `NoStatus` is the enum's `none`. */
  datatype Status = Passed | Failed | Broken | Skipped | NoStatus

  datatype StatusDetails = StatusDetails(message: Option<string>, trace: Option<string>)

  datatype Label = Label(name: string, value: string)

  datatype Link = Link(name: Option<string>, linkType: Option<string>, url: string)

  datatype ParameterMode = Default | Masked | Hidden

  datatype Parameter = Parameter(name: string, value: string, mode: Option<ParameterMode>, excluded: bool)

  datatype Attachment = Attachment(name: string, mediaType: string, source: string)

  /**
   * The part shared by steps, fixtures and test results (Allure's
   * `ExecutableItem`): steps and fixtures are exactly this record.
   */
  datatype ExecutableItem = ExecutableItem(
    name: string,
    status: Status,
    statusDetails: Option<StatusDetails>,
    description: Option<string>,
    descriptionHtml: Option<string>,
    steps: seq<ExecutableItem>,
    attachments: seq<Attachment>,
    parameters: seq<Parameter>)

  /** A freshly created step or fixture (`new() { name = name }`). */
  function NewItem(name: string): ExecutableItem {
    ExecutableItem(name, NoStatus, None, None, None, [], [], [])
  }

  /** A test result: the executable part plus the test-only fields. */
  datatype TestResult = TestResult(
    uuid: string,
    historyId: Option<string>,
    fullName: Option<string>,
    titlePath: seq<string>,
    labels: seq<Label>,
    links: seq<Link>,
    item: ExecutableItem)

  /** A container of setup (`befores`) and teardown (`afters`) fixtures. */
  datatype Container = Container(
    uuid: string,
    name: string,
    befores: seq<ExecutableItem>,
    afters: seq<ExecutableItem>)

  /**
   * A captured exception: the full names of its concrete type followed by
   * its ancestor types (outward), its message and its stack trace.
   */
  datatype Error = Error(typeChain: seq<string>, message: Option<string>, stackTrace: Option<string>)

  /**
   * The first type of `chain` (walking outward from the concrete type) that is
   * registered as an assertion-style failure.
   */
  function FirstRegistered(failExceptions: seq<string>, chain: seq<string>): (r: Option<string>)
    ensures r.Some? <==> exists i :: 0 <= i < |chain| && chain[i] in failExceptions
    ensures r.Some? ==> r.value in failExceptions && r.value in chain
    ensures r.Some? && chain[0] in failExceptions ==> r.value == chain[0]
  {
    if chain == [] then None
    else if chain[0] in failExceptions then Some(chain[0])
    else FirstRegistered(failExceptions, chain[1..])
  }

  /**
   * `ModelFunctions.ResolveErrorStatus`: failed when the error's type or one
   * of its ancestors is registered as an assertion-style failure, broken
   * otherwise.
   */
  function ResolveErrorStatus(failExceptions: seq<string>, error: Error): (r: Status)
    ensures r == Failed || r == Broken
    ensures r == Failed <==> exists i :: 0 <= i < |error.typeChain| && error.typeChain[i] in failExceptions
  {
    if FirstRegistered(failExceptions, error.typeChain).Some? then Failed else Broken
  }

  /** `ModelFunctions.ToStatusDetails`: the error's message and trace. */
  function ToStatusDetails(error: Error): StatusDetails {
    StatusDetails(error.message, error.stackTrace)
  }

  // Label builders of the `Label` class.

  datatype SeverityLevel = Blocker | Critical | Normal | Minor | Trivial

  function SeverityName(level: SeverityLevel): string {
    match level
    case Blocker => "blocker"
    case Critical => "critical"
    case Normal => "normal"
    case Minor => "minor"
    case Trivial => "trivial"
  }

  function SeverityLabel(level: SeverityLevel): Label { Label("severity", SeverityName(level)) }
  function OwnerLabel(owner: string): Label { Label("owner", owner) }
  function AllureIdLabel(id: int): Label { Label("ALLURE_ID", IntToString(id)) }
  function TagLabel(tag: string): Label { Label("tag", tag) }
  function ParentSuiteLabel(value: string): Label { Label("parentSuite", value) }
  function SuiteLabel(value: string): Label { Label("suite", value) }
  function SubSuiteLabel(value: string): Label { Label("subSuite", value) }
  function EpicLabel(value: string): Label { Label("epic", value) }
  function FeatureLabel(value: string): Label { Label("feature", value) }
  function StoryLabel(value: string): Label { Label("story", value) }
  function FrameworkLabel(value: string): Label { Label("framework", value) }
  function PackageLabel(value: string): Label { Label("package", value) }
  function TestMethodLabel(value: string): Label { Label("testMethod", value) }
  function TestClassLabel(value: string): Label { Label("testClass", value) }

  const IssueLinkType: string := "issue"
  const TmsLinkType: string := "tms"

  // Invariant decimal rendering of integers (`int.ToString()`, `string.Format("{0}", n)`).

  predicate IsDigit(c: char) { '0' <= c <= '9' }

  function DigitChar(d: nat): (c: char)
    requires d < 10
    ensures IsDigit(c) && c as int - '0' as int == d
  {
    ['0', '1', '2', '3', '4', '5', '6', '7', '8', '9'][d]
  }

  function NatToString(n: nat): (s: string)
    ensures |s| >= 1
    ensures forall i :: 0 <= i < |s| ==> IsDigit(s[i])
  {
    if n < 10 then [DigitChar(n)] else NatToString(n / 10) + [DigitChar(n % 10)]
  }

  function IntToString(n: int): string {
    if n < 0 then "-" + NatToString(-n) else NatToString(n)
  }

  function DigitValue(c: char): nat
    requires IsDigit(c)
  {
    c as int - '0' as int
  }

  /** The value a string of decimal digits denotes. */
  function DecimalValue(s: string): nat
    requires forall i :: 0 <= i < |s| ==> IsDigit(s[i])
  {
    if s == [] then 0
    else DecimalValue(s[..|s| - 1]) * 10 + DigitValue(s[|s| - 1])
  }

  /** Reading back the decimal rendering of `n` gives `n`. */
  lemma {:induction false} DecimalRoundTrip(n: nat)
    ensures DecimalValue(NatToString(n)) == n
  {
    var s := NatToString(n);
    if n >= 10 {
      DecimalRoundTrip(n / 10);
      assert s[..|s| - 1] == NatToString(n / 10);
    }
  }

  /** Distinct numbers render as distinct decimal strings. */
  lemma NatToStringInjective(m: nat, n: nat)
    requires m != n
    ensures NatToString(m) != NatToString(n)
  {
    DecimalRoundTrip(m);
    DecimalRoundTrip(n);
  }

  // `string.IsNullOrWhiteSpace`, with `char.IsWhiteSpace`'s Unicode separators.

  predicate IsWhiteSpace(c: char) {
    ('\U{0009}' <= c <= '\U{000D}') || c == ' ' || c == '\U{0085}' || c == '\U{00A0}'
    || c == '\U{1680}' || ('\U{2000}' <= c <= '\U{200A}') || c == '\U{2028}' || c == '\U{2029}'
    || c == '\U{202F}' || c == '\U{205F}' || c == '\U{3000}'
  }

  predicate IsNullOrWhiteSpace(s: Option<string>) {
    s.None? || forall i :: 0 <= i < |s.value| ==> IsWhiteSpace(s.value[i])
  }
}
