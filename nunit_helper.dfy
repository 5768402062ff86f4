/**
 * `AllureNUnitHelper`: the NUnit adapter's rules for turning an NUnit test
 * into an Allure test result — outcome classification, status details,
 * deterministic full names with locale-independent literals, namespace and
 * class-name splitting, identifiers, and walks up the NUnit test tree.
 */
module AllureNUnitHelper {
  import opened Wrappers
  import opened Model
  import opened Tracker
  import opened ExtendedApi
  import opened AllureApi

  // Outcome.

  /** NUnit's `TestStatus`. */
  datatype TestStatus = TestInconclusive | TestSkipped | TestPassed | TestWarning | TestFailed

  /** The enum member's name, as `$"{status}"` renders it. */
  function TestStatusName(status: TestStatus): string {
    match status
    case TestInconclusive => "Inconclusive"
    case TestSkipped => "Skipped"
    case TestPassed => "Passed"
    case TestWarning => "Warning"
    case TestFailed => "Failed"
  }

  /** NUnit's `AssertionStatus` of one recorded assertion. */
  datatype AssertionStatus = AssertionInconclusive | AssertionPassed | AssertionWarning | AssertionFailed | AssertionError

  /** What `TestContext.CurrentContext.Result` reports when the test ends. */
  datatype TestOutcome = TestOutcome(
    status: TestStatus,
    assertions: seq<AssertionStatus>,
    message: Option<string>,
    stackTrace: Option<string>)

  /** Whether some recorded assertion ended in an error. */
  function HasAssertionError(assertions: seq<AssertionStatus>): (r: bool)
    ensures r <==> exists i :: 0 <= i < |assertions| && assertions[i] == AssertionError
  {
    if assertions == [] then false
    else assertions[0] == AssertionError || HasAssertionError(assertions[1..])
  }

  /** `IsBroken`: a failure is a breakage when nothing was asserted or an assertion errored. */
  function IsBroken(assertions: seq<AssertionStatus>): (r: bool)
    ensures r <==> assertions == [] || exists i :: 0 <= i < |assertions| && assertions[i] == AssertionError
  {
    assertions == [] || HasAssertionError(assertions)
  }

  /** `GetNUnitStatus`: NUnit's outcome as an Allure status. */
  function GetNUnitStatus(outcome: TestOutcome): (r: Status)
    ensures r == Broken <==>
      outcome.status == TestInconclusive || outcome.status == TestWarning
      || (outcome.status == TestFailed && (outcome.assertions == [] || exists i :: 0 <= i < |outcome.assertions| && outcome.assertions[i] == AssertionError))
    ensures r == Failed <==>
      outcome.status == TestFailed && outcome.assertions != [] && forall i :: 0 <= i < |outcome.assertions| ==> outcome.assertions[i] != AssertionError
    ensures r == Skipped <==> outcome.status == TestSkipped
    ensures r == Passed <==> outcome.status == TestPassed
    ensures r != NoStatus
  {
    match outcome.status
    case TestInconclusive => Broken
    case TestWarning => Broken
    case TestSkipped => Skipped
    case TestPassed => Passed
    case TestFailed => if IsBroken(outcome.assertions) then Broken else Failed
  }

  /**
   * The status details `StopTestCase` records: none when both message and
   * trace are blank; otherwise the message (or `Test <status>` when it is
   * blank) and the trace as reported.
   */
  function TestStatusDetails(outcome: TestOutcome): (r: Option<StatusDetails>)
    ensures r.None? <==> IsNullOrWhiteSpace(outcome.message) && IsNullOrWhiteSpace(outcome.stackTrace)
    ensures r.Some? ==> r.value.trace == outcome.stackTrace
    ensures r.Some? && !IsNullOrWhiteSpace(outcome.message) ==> r.value.message == outcome.message
    ensures r.Some? && IsNullOrWhiteSpace(outcome.message) ==> r.value.message == Some("Test " + TestStatusName(outcome.status))
  {
    var hasMessage := !IsNullOrWhiteSpace(outcome.message);
    if hasMessage || !IsNullOrWhiteSpace(outcome.stackTrace) then
      Some(StatusDetails(if hasMessage then outcome.message else Some("Test " + TestStatusName(outcome.status)), outcome.stackTrace))
    else None
  }

  /** The full names of NUnit's assertion-style exceptions, registered when nothing is configured. */
  const NUnitFailExceptions: seq<string> := [
    "NUnit.Framework.Internal.NUnitException",
    "NUnit.Framework.AssertionException",
    "NUnit.Framework.MultipleAssertException"
  ]

  /** The constructor's `FailExceptions ??= ...`: a configured list is kept, a missing one becomes NUnit's. */
  method InitFailExceptions(lc: Lifecycle)
    modifies lc`failExceptions
    ensures old(lc.failExceptions).Some? ==> lc.failExceptions == old(lc.failExceptions)
    ensures old(lc.failExceptions).None? ==> lc.failExceptions == Some(NUnitFailExceptions)
  {
    if lc.failExceptions.None? {
      lc.failExceptions := Some(NUnitFailExceptions);
    }
  }

  /**
   * With the NUnit defaults in place, an error whose type chain holds an
   * NUnit assertion exception resolves to failed; any other error to broken.
   */
  lemma NUnitAssertionsFail(error: Error)
    ensures var (status, _) := ResolveDetailedStatus(FailExceptions(Some(NUnitFailExceptions)), Some(error));
            status == Failed <==> exists i :: 0 <= i < |error.typeChain| && error.typeChain[i] in NUnitFailExceptions
  {
  }

  // The NUnit test tree.

  /** The NUnit `ITest` classes the helper distinguishes (`SetUpFixture` derives from `TestFixture`). */
  datatype TestKind = TestMethod | ParameterizedMethodSuite | TestFixture | SetUpFixture
                    | ParameterizedFixtureSuite | TestSuite | TestAssembly

  function KindName(kind: TestKind): string {
    match kind
    case TestMethod => "TestMethod"
    case ParameterizedMethodSuite => "ParameterizedMethodSuite"
    case TestFixture => "TestFixture"
    case SetUpFixture => "SetUpFixture"
    case ParameterizedFixtureSuite => "ParameterizedFixtureSuite"
    case TestSuite => "TestSuite"
    case TestAssembly => "TestAssembly"
  }

  /** `test is TestFixture`. */
  predicate IsFixture(kind: TestKind) {
    kind == TestFixture || kind == SetUpFixture
  }

  /** `GetType() == typeof(TestSuite)` or `typeof(TestAssembly)`: exact types only. */
  predicate IsSuiteOrAssembly(kind: TestKind) {
    kind == TestSuite || kind == TestAssembly
  }

  /**
   * An `ITest` with the members the helper reads. `arguments` are the
   * fixture's constructor arguments for a fixture and the test's arguments
   * for a test; `parameterNames` the test method's parameter names;
   * `assemblyName` the name of the assembly the node's type (or, for an
   * assembly node, the node itself) belongs to.
   */
  datatype TestNode = TestNode(
    kind: TestKind,
    id: string,
    name: string,
    fullName: string,
    className: string,
    methodName: string,
    assemblyName: Option<string>,
    properties: map<string, seq<string>>,
    arguments: seq<ArgValue>,
    parameterNames: seq<string>,
    parent: Option<TestNode>)

  /** The ancestors of `t` and `t` itself, root first. */
  function Chain(t: TestNode): (r: seq<TestNode>)
    ensures |r| >= 1 && r[|r| - 1] == t
    decreases t
  {
    (if t.parent.Some? then Chain(t.parent.value) else []) + [t]
  }

  /** The chain starts at a root and each element is the parent of the next. */
  lemma {:induction false} ChainLinks(t: TestNode)
    ensures Chain(t)[0].parent.None?
    ensures forall i :: 0 <= i < |Chain(t)| - 1 ==> Chain(t)[i + 1].parent == Some(Chain(t)[i])
    decreases t
  {
    if t.parent.Some? {
      var p := t.parent.value;
      ChainLinks(p);
      var pc := Chain(p);
      assert Chain(t) == pc + [t];
      forall i | 0 <= i < |Chain(t)| - 1 ensures Chain(t)[i + 1].parent == Some(Chain(t)[i]) {
        if i + 1 < |pc| { assert Chain(t)[i + 1] == pc[i + 1]; }
      }
    }
  }

  function ChainOf(t: Option<TestNode>): seq<TestNode> {
    if t.Some? then Chain(t.value) else []
  }

  /**
   * `EnumerateTestElements`: pushes the test and each ancestor onto a stack,
   * which then yields them root first.
   */
  method EnumerateTestElements(test: TestNode) returns (elements: seq<TestNode>)
    ensures elements == Chain(test)
  {
    elements := [];
    var current: Option<TestNode> := Some(test);
    ChainPush(None, test, []);
    while current.Some?
      invariant ChainOf(current) + elements == Chain(test)
      decreases current
    {
      ChainPush(current.value.parent, current.value, elements);
      elements := [current.value] + elements;
      current := current.value.parent;
    }
    ChainPush(None, test, elements);
  }

  /** One step of the walk: a node's chain is its parent's chain and the node. */
  lemma ChainPush(parent: Option<TestNode>, node: TestNode, elements: seq<TestNode>)
    ensures node.parent == parent ==> ChainOf(parent) + ([node] + elements) == ChainOf(Some(node)) + elements
    ensures ChainOf(None) + elements == elements
  {
    assert [] + elements == elements;
    if node.parent == parent {
      assert Chain(node) == ChainOf(parent) + [node];
      assert ChainOf(parent) + ([node] + elements) == (ChainOf(parent) + [node]) + elements;
    }
  }

  /** A title-path element: an assembly by its assembly's name when known, anything else by its name. */
  function TitleOf(node: TestNode): string {
    if node.kind == TestAssembly then node.assemblyName.GetOr(node.name) else node.name
  }

  /** `EnumerateTitlePathElements`: the titles of the chain without its root. */
  function EnumerateTitlePathElements(test: TestNode): (r: seq<string>)
    ensures |r| == |Chain(test)| - 1
  {
    var chain := Chain(test);
    seq(|chain| - 1, i requires 0 <= i < |chain| - 1 => TitleOf(chain[i + 1]))
  }

  /** The root has an empty title path; every other node extends its parent's path by its own title. */
  lemma TitlePathExtends(test: TestNode)
    ensures test.parent.None? ==> EnumerateTitlePathElements(test) == []
    ensures test.parent.Some? ==>
      EnumerateTitlePathElements(test) == EnumerateTitlePathElements(test.parent.value) + [TitleOf(test)]
  {
    if test.parent.Some? {
      var p := test.parent.value;
      assert Chain(test) == Chain(p) + [test];
    }
  }

  /** `ResolveDisplayName`: a case of a parameterized method is shown under the method's name. */
  function ResolveDisplayName(test: TestNode): (r: string)
    ensures test.parent.Some? && test.parent.value.kind == ParameterizedMethodSuite ==> r == test.parent.value.name
    ensures test.parent.None? || test.parent.value.kind != ParameterizedMethodSuite ==> r == test.name
  {
    if test.parent.Some? && test.parent.value.kind == ParameterizedMethodSuite then test.parent.value.name
    else test.name
  }

  /** The nearest fixture among `t` and its ancestors. */
  function NearestFixture(t: Option<TestNode>): Option<TestNode>
    decreases t
  {
    if t.None? then None
    else if IsFixture(t.value.kind) then t
    else NearestFixture(t.value.parent)
  }

  /** No node of `chain` from position `from` on is a fixture. */
  predicate FixtureFree(chain: seq<TestNode>, from: int) {
    forall j :: from <= j < |chain| && 0 <= j ==> !IsFixture(chain[j].kind)
  }

  /** There is no nearest fixture exactly when the chain holds no fixture. */
  lemma {:induction false} NearestFixtureAbsent(t: TestNode)
    ensures NearestFixture(Some(t)).None? <==> FixtureFree(Chain(t), 0)
    decreases t
  {
    var chain := Chain(t);
    if IsFixture(t.kind) {
      assert chain[|chain| - 1] == t;
    } else if t.parent.Some? {
      var pc := Chain(t.parent.value);
      NearestFixtureAbsent(t.parent.value);
      assert chain == pc + [t];
      if FixtureFree(pc, 0) {
        forall j | 0 <= j < |chain| ensures !IsFixture(chain[j].kind) {
          if j < |pc| { assert chain[j] == pc[j]; }
        }
      } else {
        var j :| 0 <= j < |pc| && IsFixture(pc[j].kind);
        assert chain[j] == pc[j];
      }
    } else {
      assert chain == [t];
    }
  }

  /** The nearest fixture is a fixture of the chain with no fixture below it. */
  lemma {:induction false} NearestFixtureIsNearest(t: TestNode)
    ensures NearestFixture(Some(t)).Some? ==>
      exists i :: 0 <= i < |Chain(t)| && Chain(t)[i] == NearestFixture(Some(t)).value && IsFixture(Chain(t)[i].kind)
        && FixtureFree(Chain(t), i + 1)
    decreases t
  {
    var chain := Chain(t);
    if IsFixture(t.kind) {
      assert chain[|chain| - 1] == t && FixtureFree(chain, |chain|);
    } else if t.parent.Some? {
      var p := t.parent.value;
      assert NearestFixture(Some(t)) == NearestFixture(Some(p));
      if NearestFixture(Some(p)).Some? {
        NearestFixtureIsNearest(p);
        var pc := Chain(p);
        assert chain == pc + [t];
        var i :| 0 <= i < |pc| && pc[i] == NearestFixture(Some(p)).value && IsFixture(pc[i].kind) && FixtureFree(pc, i + 1);
        assert chain[i] == pc[i];
        forall j | i + 1 <= j < |chain| ensures !IsFixture(chain[j].kind) {
          if j < |pc| { assert chain[j] == pc[j]; }
        }
        assert FixtureFree(chain, i + 1);
        assert chain[i] == NearestFixture(Some(t)).value && IsFixture(chain[i].kind);
      }
    } else {
      assert NearestFixture(t.parent).None?;
    }
  }

  /** The faults the helper's walks can raise. */
  datatype Fault = NullReference | InvalidOperation(message: string)

  function NoFixtureMessage(test: TestNode): string {
    "Could not find TestFixture in the hierarchy for test: " + test.fullName + ". Test type: " + KindName(test.kind)
  }

  /** `GetTestFixture`: walks up from the test to the nearest fixture; fails when there is none. */
  method GetTestFixture(test: TestNode) returns (r: Result<TestNode, Fault>)
    ensures NearestFixture(Some(test)).Some? ==> r == Success(NearestFixture(Some(test)).value)
    ensures NearestFixture(Some(test)).None? ==> r == Failure(InvalidOperation(NoFixtureMessage(test)))
  {
    var current: Option<TestNode> := Some(test);
    while current.Some?
      invariant NearestFixture(current) == NearestFixture(Some(test))
      decreases current
    {
      if IsFixture(current.value.kind) {
        return Success(current.value);
      }
      current := current.value.parent;
    }
    return Failure(InvalidOperation(NoFixtureMessage(test)));
  }

  /**
   * The values of property `name` from `t` up to, not including, the first
   * exact suite or assembly, bottom-up; walking past the root dereferences null.
   */
  function PropertiesFrom(t: TestNode, name: string): Result<seq<string>, Fault>
    decreases t
  {
    if IsSuiteOrAssembly(t.kind) then Success([])
    else
      var own := if name in t.properties then t.properties[name] else [];
      if t.parent.None? then Failure(NullReference)
      else match PropertiesFrom(t.parent.value, name)
        case Success(rest) => Success(own + rest)
        case Failure(e) => Failure(e)
  }

  /** Some exact suite or assembly lies among `t` and its ancestors. */
  predicate ReachesSuite(t: TestNode) {
    exists i :: 0 <= i < |Chain(t)| && IsSuiteOrAssembly(Chain(t)[i].kind)
  }

  /** The walk succeeds exactly when an exact suite or assembly lies on the chain, whatever the property. */
  lemma {:induction false} PropertiesFromSucceeds(t: TestNode, name: string)
    ensures PropertiesFrom(t, name).Success? <==> ReachesSuite(t)
    decreases t
  {
    var chain := Chain(t);
    if IsSuiteOrAssembly(t.kind) {
      assert chain[|chain| - 1] == t;
    } else if t.parent.Some? {
      var p := t.parent.value;
      PropertiesFromSucceeds(p, name);
      var pc := Chain(p);
      assert chain == pc + [t];
      if exists i :: 0 <= i < |pc| && IsSuiteOrAssembly(pc[i].kind) {
        var i :| 0 <= i < |pc| && IsSuiteOrAssembly(pc[i].kind);
        assert chain[i] == pc[i];
      }
      if exists i :: 0 <= i < |chain| && IsSuiteOrAssembly(chain[i].kind) {
        var i :| 0 <= i < |chain| && IsSuiteOrAssembly(chain[i].kind);
        assert i < |pc| && pc[i] == chain[i];
      }
    } else {
      assert chain == [t];
    }
  }

  /** `values` in front of a walk's result. */
  function Prepend(values: seq<string>, rest: Result<seq<string>, Fault>): Result<seq<string>, Fault> {
    match rest
    case Success(more) => Success(values + more)
    case Failure(e) => Failure(e)
  }

  lemma PrependNothing(rest: Result<seq<string>, Fault>)
    ensures Prepend([], rest) == rest
  {
    if rest.Success? { assert [] + rest.value == rest.value; }
  }

  lemma PrependTwice(first: seq<string>, second: seq<string>, rest: Result<seq<string>, Fault>)
    ensures Prepend(first, Prepend(second, rest)) == Prepend(first + second, rest)
  {
    if rest.Success? { assert first + (second + rest.value) == (first + second) + rest.value; }
  }

  /** `GetTestProperties`: collects the property's values while walking up the tree. */
  method GetTestProperties(test: TestNode, name: string) returns (r: Result<seq<string>, Fault>)
    ensures r == PropertiesFrom(test, name)
  {
    var list: seq<string> := [];
    var current := test;
    PrependNothing(PropertiesFrom(test, name));
    while !IsSuiteOrAssembly(current.kind)
      invariant PropertiesFrom(test, name) == Prepend(list, PropertiesFrom(current, name))
      decreases current
    {
      var own := if name in current.properties then current.properties[name] else [];
      if current.parent.None? {
        return Failure(NullReference);
      }
      PrependTwice(list, own, PropertiesFrom(current.parent.value, name));
      list := list + own;
      current := current.parent.value;
    }
    assert list + [] == list;
    return Success(list);
  }

  // Deterministic full names.

  /** The value kinds an attribute argument can have besides strings, chars, types and arrays. */
  datatype PrimitiveKind = BoolKind | ByteKind | SByteKind | ShortKind | UShortKind | IntKind | UIntKind
                         | LongKind | ULongKind | FloatKind | DoubleKind | EnumKind

  /** `LiteralSuffixes`: the C# literal suffix of the kinds that have one. */
  const LiteralSuffixes: map<PrimitiveKind, string> := map[UIntKind := "u", LongKind := "L", ULongKind := "UL", FloatKind := "f"]

  /** A test or fixture argument; a primitive carries its invariant-culture text. */
  datatype ArgValue =
    | NullArg
    | TextArg(text: string)
    | TypeArg(typeName: string)
    | ArrayArg(elements: seq<ArgValue>)
    | CharArg(c: char)
    | PrimitiveArg(kind: PrimitiveKind, invariantText: string)

  /**
   * The collaborators of the literal formatter: `FormatFunctions.Format` for
   * strings and for chars (a quoted literal) and `IdFunctions.GetTypeId`.
   */
  datatype LiteralFormatters = LiteralFormatters(
    text: string -> string,
    charLiteral: char -> string,
    typeId: string -> string)

  /** A char's formatted literal always has its two quotes. */
  predicate QuotesChars(fmt: LiteralFormatters) {
    forall c :: |fmt.charLiteral(c)| >= 2
  }

  /** `string.Join(",", parts)`. */
  function JoinCommas(parts: seq<string>): string {
    if parts == [] then ""
    else if |parts| == 1 then parts[0]
    else parts[0] + "," + JoinCommas(parts[1..])
  }

  /** `FormatChar`: the formatter's literal with its outer quotes replaced by single quotes. */
  function FormatChar(c: char, fmt: LiteralFormatters): (r: string)
    requires QuotesChars(fmt)
    ensures |r| == |fmt.charLiteral(c)|
    ensures r[0] == '\'' && r[|r| - 1] == '\''
    ensures r[1..|r| - 1] == fmt.charLiteral(c)[1..|fmt.charLiteral(c)| - 1]
  {
    var text := fmt.charLiteral(c);
    "'" + text[1..|text| - 1] + "'"
  }

  /** `FormatPrimitive`: the invariant text, then the C# literal suffix of uint, long, ulong and float. */
  function FormatPrimitive(kind: PrimitiveKind, invariantText: string): (r: string)
    ensures kind == UIntKind ==> r == invariantText + "u"
    ensures kind == LongKind ==> r == invariantText + "L"
    ensures kind == ULongKind ==> r == invariantText + "UL"
    ensures kind == FloatKind ==> r == invariantText + "f"
    ensures kind != UIntKind && kind != LongKind && kind != ULongKind && kind != FloatKind ==> r == invariantText
  {
    if kind in LiteralSuffixes then invariantText + LiteralSuffixes[kind] else invariantText
  }

  /** `FormatTestFixtureArg` (with `FormatArray` for arrays). */
  function FormatTestFixtureArg(value: ArgValue, fmt: LiteralFormatters): (r: string)
    requires QuotesChars(fmt)
    ensures value.NullArg? ==> r == "null"
    ensures value.TextArg? ==> r == fmt.text(value.text)
    ensures value.TypeArg? ==> r == "<" + fmt.typeId(value.typeName) + ">"
    ensures value.ArrayArg? ==> |r| >= 2 && r[0] == '[' && r[|r| - 1] == ']'
    ensures value.CharArg? ==>
              var quoted := fmt.charLiteral(value.c);
              |r| == |quoted| && r[0] == '\'' && r[|r| - 1] == '\'' && r[1..|r| - 1] == quoted[1..|quoted| - 1]
    ensures value.PrimitiveArg? ==> r == FormatPrimitive(value.kind, value.invariantText)
    decreases value
  {
    match value
    case NullArg => "null"
    case TextArg(text) => fmt.text(text)
    case TypeArg(typeName) => "<" + fmt.typeId(typeName) + ">"
    case ArrayArg(elements) =>
      "[" + JoinCommas(seq(|elements|, i requires 0 <= i < |elements| => FormatTestFixtureArg(elements[i], fmt))) + "]"
    case CharArg(c) => FormatChar(c, fmt)
    case PrimitiveArg(kind, text) => FormatPrimitive(kind, text)
  }

  /** `s.Split(',')`: the pieces between the commas, in order. */
  function SplitCommas(s: string): (r: seq<string>)
    ensures |r| >= 1
    decreases |s|
  {
    var k := IndexOf(s, ',');
    if k == -1 then [s] else [s[..k]] + SplitCommas(s[k + 1..])
  }

  /** The first comma after a comma-free prefix is the one that ends it. */
  lemma {:induction false} IndexOfAfterPrefix(a: string, c: char, b: string)
    requires c !in a
    ensures IndexOf(a + [c] + b, c) == |a|
    decreases |a|
  {
    var s := a + [c] + b;
    if a == [] {
      assert s[0] == c;
    } else {
      assert s[0] == a[0];
      assert s[1..] == a[1..] + [c] + b;
      IndexOfAfterPrefix(a[1..], c, b);
    }
  }

  /** Joining comma-free pieces with commas and splitting the result gives the pieces back. */
  lemma {:induction false} JoinCommasRoundTrip(parts: seq<string>)
    requires parts != []
    requires forall i :: 0 <= i < |parts| ==> ',' !in parts[i]
    ensures SplitCommas(JoinCommas(parts)) == parts
    decreases |parts|
  {
    if |parts| > 1 {
      var first, rest := parts[0], JoinCommas(parts[1..]);
      var s := JoinCommas(parts);
      assert s == first + [','] + rest;
      IndexOfAfterPrefix(first, ',', rest);
      assert s[..|first|] == first;
      assert s[|first| + 1..] == rest;
      assert SplitCommas(s) == [first] + SplitCommas(rest);
      JoinCommasRoundTrip(parts[1..]);
      assert [first] + parts[1..] == parts;
    }
  }

  /**
   * An array argument renders as its elements' renderings in brackets: when
   * no element rendering holds a comma, splitting the bracketed text at the
   * commas gives back each element's rendering, in order.
   */
  lemma ArrayElementsRecoverable(elements: seq<ArgValue>, fmt: LiteralFormatters)
    requires QuotesChars(fmt) && elements != []
    requires forall i :: 0 <= i < |elements| ==> ',' !in FormatTestFixtureArg(elements[i], fmt)
    ensures var r := FormatTestFixtureArg(ArrayArg(elements), fmt);
            var pieces := SplitCommas(r[1..|r| - 1]);
            |pieces| == |elements|
            && forall i :: 0 <= i < |elements| ==> pieces[i] == FormatTestFixtureArg(elements[i], fmt)
  {
    var parts := seq(|elements|, i requires 0 <= i < |elements| => FormatTestFixtureArg(elements[i], fmt));
    var r := FormatTestFixtureArg(ArrayArg(elements), fmt);
    assert r[1..|r| - 1] == JoinCommas(parts);
    JoinCommasRoundTrip(parts);
  }

  /** The parenthesised arguments part of a full name; empty without arguments. */
  function ArgsPart(args: seq<ArgValue>, fmt: LiteralFormatters): (r: string)
    requires QuotesChars(fmt)
    ensures r == "" <==> args == []
    ensures args != [] ==> r[0] == '(' && r[|r| - 1] == ')'
  {
    if args == [] then ""
    else "(" + JoinCommas(seq(|args|, i requires 0 <= i < |args| => FormatTestFixtureArg(args[i], fmt))) + ")"
  }

  /**
   * The arguments part holds the arguments' renderings joined by commas: when
   * no rendering holds a comma, splitting the text between the parentheses
   * gives back each argument's rendering, in order.
   */
  lemma ArgsRecoverable(args: seq<ArgValue>, fmt: LiteralFormatters)
    requires QuotesChars(fmt) && args != []
    requires forall i :: 0 <= i < |args| ==> ',' !in FormatTestFixtureArg(args[i], fmt)
    ensures var r := ArgsPart(args, fmt);
            var pieces := SplitCommas(r[1..|r| - 1]);
            |pieces| == |args|
            && forall i :: 0 <= i < |args| ==> pieces[i] == FormatTestFixtureArg(args[i], fmt)
  {
    var parts := seq(|args|, i requires 0 <= i < |args| => FormatTestFixtureArg(args[i], fmt));
    var r := ArgsPart(args, fmt);
    assert r[1..|r| - 1] == JoinCommas(parts);
    JoinCommasRoundTrip(parts);
  }

  /**
   * `CreateFullName`: the fixture class's type id, the fixture's arguments
   * when it has any, a dot and the method id. It fails when the test has no
   * fixture.
   */
  function CreateFullName(test: TestNode, classTypeId: string, methodId: string, fmt: LiteralFormatters): (r: Result<string, Fault>)
    requires QuotesChars(fmt)
    ensures r.Failure? <==> NearestFixture(Some(test)).None?
    ensures r.Success? ==>
      var args := NearestFixture(Some(test)).value.arguments;
      r.value == classTypeId + ArgsPart(args, fmt) + "." + methodId
      && (args == [] ==> r.value == classTypeId + "." + methodId)
  {
    match NearestFixture(Some(test))
    case None => Failure(InvalidOperation(NoFixtureMessage(test)))
    case Some(fixture) => Success(classTypeId + ArgsPart(fixture.arguments, fmt) + "." + methodId)
  }

  // Namespace and class-name splitting.

  /** `s.IndexOf(c)`: the first position of `c`, or -1. */
  function IndexOf(s: string, c: char): (r: int)
    ensures -1 <= r < |s|
    ensures r == -1 <==> c !in s
    ensures r >= 0 ==> s[r] == c && c !in s[..r]
  {
    if s == [] then -1
    else if s[0] == c then 0
    else var k := IndexOf(s[1..], c); if k == -1 then -1 else (assert s[..k + 1] == [s[0]] + s[1..][..k]; k + 1)
  }

  /** `s.LastIndexOf(c)`: the last position of `c`, or -1. */
  function LastIndexOf(s: string, c: char): (r: int)
    ensures -1 <= r < |s|
    ensures r == -1 <==> c !in s
    ensures r >= 0 ==> s[r] == c && c !in s[r + 1..]
  {
    if s == [] then -1
    else if s[|s| - 1] == c then |s| - 1
    else (assert s == s[..|s| - 1] + [s[|s| - 1]]; LastIndexOf(s[..|s| - 1], c))
  }

  /** `StripTypeArgs`: the name up to its first `<`. */
  function StripTypeArgs(classFullName: string): (r: string)
    ensures r <= classFullName && '<' !in r
    ensures |r| < |classFullName| ==> classFullName[|r|] == '<'
  {
    var start := IndexOf(classFullName, '<');
    if start == -1 then classFullName else classFullName[..start]
  }

  /** `GetNamespace`: the part before the last dot outside the type arguments; none without a dot. */
  function GetNamespace(classFullName: string): Option<string> {
    var lastDot := LastIndexOf(StripTypeArgs(classFullName), '.');
    if lastDot == -1 then None else Some(classFullName[..lastDot])
  }

  /** `GetClassName`: the part after that dot, type arguments included; the whole name without a dot. */
  function GetClassName(classFullName: string): string {
    var lastDot := LastIndexOf(StripTypeArgs(classFullName), '.');
    if lastDot == -1 then classFullName else classFullName[lastDot + 1..]
  }

  /**
   * Splitting loses nothing: namespace, dot and class name give back the
   * full name; without a namespace the class name is the full name. The
   * class name has no dot before its type arguments.
   */
  lemma SplitRoundTrip(classFullName: string)
    ensures GetNamespace(classFullName).Some? ==>
      GetNamespace(classFullName).value + "." + GetClassName(classFullName) == classFullName
    ensures GetNamespace(classFullName).None? ==> GetClassName(classFullName) == classFullName
    ensures GetNamespace(classFullName).None? <==> '.' !in StripTypeArgs(classFullName)
    ensures '.' !in StripTypeArgs(GetClassName(classFullName))
  {
    var stripped := StripTypeArgs(classFullName);
    var lastDot := LastIndexOf(stripped, '.');
    if lastDot != -1 {
      var cls := classFullName[lastDot + 1..];
      assert classFullName[..lastDot] + "." + cls == classFullName by {
        assert classFullName[lastDot] == '.';
        assert classFullName == classFullName[..lastDot] + [classFullName[lastDot]] + cls;
      }
      StrippedSuffix(classFullName, lastDot + 1);
    }
  }

  /** Stripping a suffix of a name cut inside its plain part gives the matching suffix of the stripped name. */
  lemma StrippedSuffix(s: string, k: nat)
    requires k <= |StripTypeArgs(s)|
    ensures StripTypeArgs(s[k..]) == StripTypeArgs(s)[k..]
  {
    var t := StripTypeArgs(s);
    var u := s[k..];
    if |t| < |s| {
      assert u[|t| - k] == '<';
      assert '<' !in u[..|t| - k] by { assert u[..|t| - k] == t[k..]; }
      var j := IndexOf(u, '<');
      assert j == |t| - k;
    } else {
      assert '<' !in u by { assert u == t[k..]; }
    }
  }

  // Identifiers and containers.

  /** `ContainerId`: the legacy id of a test's container. */
  function ContainerId(test: TestNode): string {
    "tc-" + test.id
  }

  /** `CreateTestContainer`: named after the test, with the legacy or a fresh id. */
  function CreateTestContainer(test: TestNode, useLegacyIds: bool, uuid: string): (r: Container)
    ensures r.name == test.fullName && r.befores == [] && r.afters == []
    ensures useLegacyIds ==> r.uuid == "tc-" + test.id
    ensures !useLegacyIds ==> r.uuid == uuid
  {
    Container(if useLegacyIds then ContainerId(test) else uuid, test.fullName, [], [])
  }

  /** `SetLegacyIdentifiers`: uuid `<guid>-tr-<id>`, full name and history id the test's full name. */
  method SetLegacyIdentifiers(test: TestNode, testResult: TestResult, guid: string) returns (r: TestResult)
    ensures r.uuid == guid + "-tr-" + test.id
    ensures r.fullName == Some(test.fullName) && r.historyId == Some(test.fullName)
    ensures r.(uuid := testResult.uuid, fullName := testResult.fullName, historyId := testResult.historyId) == testResult
  {
    r := testResult.(uuid := guid + "-tr-" + test.id);
    r := r.(fullName := Some(test.fullName));
    r := r.(historyId := Some(test.fullName));
  }

  /** `SetIdentifiers`: legacy ids, or a fresh uuid and the deterministic full name. */
  method SetIdentifiers(test: TestNode, testResult: TestResult, useLegacyIds: bool, uuid: string, guid: string,
                        classTypeId: string, methodId: string, fmt: LiteralFormatters) returns (r: Result<TestResult, Fault>)
    requires QuotesChars(fmt)
    ensures useLegacyIds ==>
      r == Success(testResult.(uuid := guid + "-tr-" + test.id, fullName := Some(test.fullName), historyId := Some(test.fullName)))
    ensures !useLegacyIds ==> (r.Failure? <==> NearestFixture(Some(test)).None?)
    ensures !useLegacyIds && r.Success? ==>
      r.value == testResult.(uuid := uuid, fullName := Some(CreateFullName(test, classTypeId, methodId, fmt).value))
  {
    if useLegacyIds {
      var t := SetLegacyIdentifiers(test, testResult, guid);
      return Success(t);
    }
    var fullName := CreateFullName(test, classTypeId, methodId, fmt);
    if fullName.Failure? {
      return Failure(fullName.error);
    }
    r := Success(testResult.(uuid := uuid, fullName := Some(fullName.value)));
  }

  /** The parameters `AddTestParametersFromNUnit` adds: names zipped with arguments, the shorter deciding. */
  function NUnitParameters(names: seq<string>, arguments: seq<ArgValue>, format: ArgValue -> string): (r: seq<Parameter>)
    ensures |r| == if |names| < |arguments| then |names| else |arguments|
    ensures forall i :: 0 <= i < |r| ==> r[i] == Parameter(names[i], format(arguments[i]), None, false)
  {
    if names == [] || arguments == [] then []
    else [Parameter(names[0], format(arguments[0]), None, false)] + NUnitParameters(names[1..], arguments[1..], format)
  }

  /** `AddTestParametersFromNUnit`: adds one parameter per (name, argument) pair, in order. */
  method AddTestParametersFromNUnit(test: TestNode, testResult: TestResult, format: ArgValue -> string) returns (r: TestResult)
    ensures r == testResult.(item := testResult.item.(parameters := testResult.item.parameters
                   + NUnitParameters(test.parameterNames, test.arguments, format)))
  {
    var n := if |test.parameterNames| < |test.arguments| then |test.parameterNames| else |test.arguments|;
    var added := NUnitParameters(test.parameterNames, test.arguments, format);
    r := testResult;
    for i := 0 to n
      invariant r == testResult.(item := testResult.item.(parameters := testResult.item.parameters + added[..i]))
    {
      r := r.(item := r.item.(parameters := r.item.parameters + [Parameter(test.parameterNames[i], format(test.arguments[i]), None, false)]));
      assert added[..i + 1] == added[..i] + [added[i]];
    }
    assert added[..n] == added;
  }

  /** The labels the adapter itself gives every test result. */
  function AdapterLabels(test: TestNode): seq<Label> {
    [FrameworkLabel("NUnit"), PackageLabel(test.className), TestMethodLabel(test.methodName),
     TestClassLabel(GetClassName(test.className))]
  }

  /**
   * `CreateTestResult`: display name, title path, labels (the thread, host
   * and language labels first, the environment and global labels last, both
   * given), parameters and identifiers. It fails when the test has no
   * fixture, as the attribute scan looks the fixture up.
   */
  method CreateTestResult(test: TestNode, useLegacyIds: bool, uuid: string, guid: string,
                          classTypeId: string, methodId: string, fmt: LiteralFormatters,
                          format: ArgValue -> string, ambientLabels: seq<Label>, environmentLabels: seq<Label>)
    returns (r: Result<TestResult, Fault>)
    requires QuotesChars(fmt)
    ensures r.Failure? <==> NearestFixture(Some(test)).None?
    ensures r.Success? ==>
      r.value.item.name == ResolveDisplayName(test)
      && r.value.titlePath == EnumerateTitlePathElements(test)
      && r.value.labels == ambientLabels + AdapterLabels(test) + environmentLabels
      && r.value.item.parameters == NUnitParameters(test.parameterNames, test.arguments, format)
      && r.value.item.status == NoStatus && r.value.item.steps == [] && r.value.links == []
    ensures useLegacyIds && r.Success? ==>
      r.value.uuid == guid + "-tr-" + test.id
      && r.value.fullName == Some(test.fullName) && r.value.historyId == Some(test.fullName)
    ensures !useLegacyIds && r.Success? ==>
      CreateFullName(test, classTypeId, methodId, fmt).Success?
      && r.value.uuid == uuid
      && r.value.fullName == Some(CreateFullName(test, classTypeId, methodId, fmt).value)
      && r.value.historyId == None
  {
    var fixture := GetTestFixture(test);
    if fixture.Failure? {
      return Failure(fixture.error);
    }
    var labels := ambientLabels + AdapterLabels(test) + environmentLabels;
    var testResult := TestResult("", None, None, EnumerateTitlePathElements(test), labels, [], NewItem(ResolveDisplayName(test)));
    testResult := AddTestParametersFromNUnit(test, testResult, format);
    r := SetIdentifiers(test, testResult, useLegacyIds, uuid, guid, classTypeId, methodId, fmt);
  }

  // Finishing a test.

  /** The description after `UpdateTestDataFromNUnitProperties` appends each line and a newline (null reads as empty). */
  function AppendLines(description: Option<string>, lines: seq<string>): Option<string> {
    if lines == [] then description
    else Some(AppendLines(description, lines[..|lines| - 1]).GetOr("") + lines[|lines| - 1] + "\n")
  }

  /** Each line followed by a newline. */
  function Lines(lines: seq<string>): string {
    if lines == [] then "" else Lines(lines[..|lines| - 1]) + lines[|lines| - 1] + "\n"
  }

  /** With at least one line, the description becomes the old one (or nothing) followed by the lines. */
  lemma {:induction false} AppendLinesText(description: Option<string>, lines: seq<string>)
    ensures lines != [] ==> AppendLines(description, lines) == Some(description.GetOr("") + Lines(lines))
  {
    if lines != [] {
      var init, last := lines[..|lines| - 1], lines[|lines| - 1];
      if init == [] {
        assert AppendLines(description, init) == description;
        assert Lines(lines) == last + "\n";
        assert description.GetOr("") + last + "\n" == description.GetOr("") + (last + "\n");
      } else {
        AppendLinesText(description, init);
        assert description.GetOr("") + Lines(init) + last + "\n" == description.GetOr("") + (Lines(init) + last + "\n");
      }
    }
  }

  function OwnerLabels(owners: seq<string>): (r: seq<Label>)
    ensures |r| == |owners|
    ensures forall i :: 0 <= i < |owners| ==> r[i] == OwnerLabel(owners[i])
  {
    if owners == [] then [] else [OwnerLabel(owners[0])] + OwnerLabels(owners[1..])
  }

  function AppendDescriptionLine(line: string): TestUpdate {
    (t: TestResult) => t.(item := t.item.(description := Some(t.item.description.GetOr("") + line + "\n")))
  }

  function WithDescriptionLines(t: TestResult, lines: seq<string>): TestResult {
    t.(item := t.item.(description := AppendLines(t.item.description, lines)))
  }

  function WithLabels(t: TestResult, labels: seq<Label>): TestResult {
    t.(labels := t.labels + labels)
  }

  /** The test after taking over the NUnit description, author and category properties. */
  function WithNUnitProperties(t: TestResult, descriptions: seq<string>, authors: seq<string>, categories: seq<string>): TestResult {
    WithLabels(WithLabels(WithDescriptionLines(t, descriptions), OwnerLabels(authors)), TagLabels(categories))
  }

  function Repeat(e: Event, n: nat): (r: seq<Event>)
    ensures |r| == n && forall i :: 0 <= i < n ==> r[i] == e
  {
    if n == 0 then [] else Repeat(e, n - 1) + [e]
  }

  lemma RepeatAdd(e: Event, m: nat, n: nat)
    ensures Repeat(e, m) + Repeat(e, n) == Repeat(e, m + n)
  {
  }

  /** One test update per line, each appending the line and a newline to the description. */
  method AppendDescriptionLines(lc: Lifecycle, lines: seq<string>)
    requires lc.context.Valid() && lc.context.HasTest()
    modifies lc`context, lc`trace
    ensures lc.context.Valid() && lc.context.HasTest()
    ensures lc.context == old(lc.context).(test := Some(WithDescriptionLines(old(lc.context).test.value, lines)))
    ensures lc.trace == old(lc.trace) + Repeat(TestUpdated, |lines|)
  {
    var c0, t0, tr0 := lc.context, lc.context.test.value, lc.trace;
    assert c0.(test := Some(WithDescriptionLines(t0, []))) == c0;
    for i := 0 to |lines|
      invariant lc.context == c0.(test := Some(WithDescriptionLines(t0, lines[..i])))
      invariant lc.trace == tr0 + Repeat(TestUpdated, i)
    {
      lc.UpdateTestCase(AppendDescriptionLine(lines[i]));
      assert lines[..i + 1][..i] == lines[..i];
    }
    assert lines[..|lines|] == lines;
  }

  /** One test update per label, each adding that label. */
  method AddTestLabels(lc: Lifecycle, labels: seq<Label>)
    requires lc.context.Valid() && lc.context.HasTest()
    modifies lc`context, lc`trace
    ensures lc.context.Valid() && lc.context.HasTest()
    ensures lc.context == old(lc.context).(test := Some(WithLabels(old(lc.context).test.value, labels)))
    ensures lc.trace == old(lc.trace) + Repeat(TestUpdated, |labels|)
  {
    var c0, t0, tr0 := lc.context, lc.context.test.value, lc.trace;
    assert t0.labels + [] == t0.labels;
    for i := 0 to |labels|
      invariant lc.context == c0.(test := Some(WithLabels(t0, labels[..i])))
      invariant lc.trace == tr0 + Repeat(TestUpdated, i)
    {
      lc.UpdateTestCase(AppendLabels([labels[i]]));
      assert t0.labels + labels[..i] + [labels[i]] == t0.labels + labels[..i + 1];
    }
    assert labels[..|labels|] == labels;
  }

  /**
   * `UpdateTestDataFromNUnitProperties`: one test update per description
   * line, then per author (an owner label), then per category (a tag label).
   * The three walks read the tree only, so they are done up front; they fail
   * together.
   */
  method UpdateTestDataFromNUnitProperties(lc: Lifecycle, test: TestNode) returns (r: Result<(), Fault>)
    requires lc.context.Valid() && lc.context.HasTest()
    modifies lc`context, lc`trace
    ensures lc.context.Valid() && lc.context.HasTest()
    ensures r.Success? <==> ReachesSuite(test)
    ensures r.Failure? ==> lc.context == old(lc.context) && lc.trace == old(lc.trace)
    ensures r.Success? ==>
      PropertiesFrom(test, "Description").Success? && PropertiesFrom(test, "Author").Success?
      && PropertiesFrom(test, "Category").Success?
    ensures r.Success? ==>
      var ds := PropertiesFrom(test, "Description").value;
      var authors := PropertiesFrom(test, "Author").value;
      var cs := PropertiesFrom(test, "Category").value;
      lc.context == old(lc.context).(test := Some(WithNUnitProperties(old(lc.context).test.value, ds, authors, cs)))
      && lc.trace == old(lc.trace) + Repeat(TestUpdated, |ds| + |authors| + |cs|)
  {
    PropertiesFromSucceeds(test, "Description");
    PropertiesFromSucceeds(test, "Author");
    PropertiesFromSucceeds(test, "Category");
    var descriptions := GetTestProperties(test, "Description");
    var authors := GetTestProperties(test, "Author");
    var categories := GetTestProperties(test, "Category");
    if descriptions.Failure? || authors.Failure? || categories.Failure? {
      return Failure(NullReference);
    }
    var tr0 := lc.trace;
    AppendDescriptionLines(lc, descriptions.value);
    var tr1 := lc.trace;
    AddTestLabels(lc, OwnerLabels(authors.value));
    var tr2 := lc.trace;
    AddTestLabels(lc, TagLabels(categories.value));
    RepeatAdd(TestUpdated, |descriptions.value|, |authors.value|);
    RepeatAdd(TestUpdated, |descriptions.value| + |authors.value|, |categories.value|);
    assert lc.trace == tr0 + Repeat(TestUpdated, |descriptions.value|) + Repeat(TestUpdated, |authors.value|)
                     + Repeat(TestUpdated, |categories.value|);
    r := Success(());
  }

  /** `ModelFunctions.EnsureSuites(result, assembly, namespace, className)`, which is not part of this model. */
  type EnsureSuites = (TestResult, Option<string>, Option<string>, string) -> TestResult

  function WithSuites(ensureSuites: EnsureSuites, assemblyName: Option<string>, ns: Option<string>, className: string): TestUpdate {
    (t: TestResult) => ensureSuites(t, assemblyName, ns, className)
  }

  /** `ApplyDefaultSuiteHierarchy`: suites from the test's assembly and its fixture's namespace and class name. */
  method ApplyDefaultSuiteHierarchy(lc: Lifecycle, test: TestNode, ensureSuites: EnsureSuites) returns (r: Result<(), Fault>)
    requires lc.context.Valid() && lc.context.HasTest()
    modifies lc`context, lc`trace
    ensures lc.context.Valid() && lc.context.HasTest()
    ensures r.Failure? <==> NearestFixture(Some(test)).None?
    ensures r.Failure? ==> lc.context == old(lc.context) && lc.trace == old(lc.trace)
    ensures r.Success? ==>
      var fixtureName := NearestFixture(Some(test)).value.fullName;
      lc.context == old(lc.context).UpdateTestCase(
        WithSuites(ensureSuites, test.assemblyName, GetNamespace(fixtureName), GetClassName(fixtureName)))
      && lc.trace == old(lc.trace) + [TestUpdated]
  {
    var fixture := GetTestFixture(test);
    if fixture.Failure? {
      return Failure(fixture.error);
    }
    var name := fixture.value.fullName;
    lc.UpdateTestCase(WithSuites(ensureSuites, test.assemblyName, GetNamespace(name), GetClassName(name)));
    r := Success(());
  }

  /** `AddConsoleOutputAttachment`: a non-blank console output becomes a text attachment. */
  method AddConsoleOutputAttachment(lc: Lifecycle, output: Option<string>, utf8: string -> Bytes, uuid: string)
    requires lc.context.Valid()
    modifies lc`context, lc`trace
    ensures lc.context.Valid() && lc.context.HasTest() == old(lc.context).HasTest()
    ensures IsNullOrWhiteSpace(output) || !old(lc.context).HasTestOrFixture() ==>
      lc.context == old(lc.context) && lc.trace == old(lc.trace)
    ensures !IsNullOrWhiteSpace(output) && old(lc.context).HasTestOrFixture() ==>
      lc.context == old(lc.context).UpdateExecutableItem(
        AddAttachmentTo(Attachment("Console Output", "text/plain", AttachmentSource(uuid, ".txt"))))
      && lc.trace == old(lc.trace) + [Written(AttachmentSource(uuid, ".txt"), utf8(output.value)), ItemUpdated]
  {
    if !IsNullOrWhiteSpace(output) {
      AddAttachment(lc, "Console Output", "text/plain", utf8(output.value), ".txt", uuid);
    }
  }

  function SetOutcome(status: Status, details: Option<StatusDetails>): TestUpdate {
    (t: TestResult) => t.(item := t.item.(status := status, statusDetails := details))
  }

  /** The text attachment that holds a test's console output. */
  function ConsoleOutputAttachment(uuid: string): Attachment {
    Attachment("Console Output", "text/plain", AttachmentSource(uuid, ".txt"))
  }

  /** The context after `AddConsoleOutputAttachment`. */
  function ConsoleAttached(c: Context, output: Option<string>, uuid: string): (r: Context)
    requires c.Valid()
    ensures r.Valid() && r.HasTest() == c.HasTest() && r.HasFixture() == c.HasFixture()
  {
    if !IsNullOrWhiteSpace(output) && c.HasTestOrFixture() then c.UpdateExecutableItem(AddAttachmentTo(ConsoleOutputAttachment(uuid)))
    else c
  }

  /** The events `AddConsoleOutputAttachment` records: the written file, then the item update. */
  function ConsoleEvents(c: Context, output: Option<string>, utf8: string -> Bytes, uuid: string): seq<Event> {
    if !IsNullOrWhiteSpace(output) && c.HasTestOrFixture() then
      [Written(AttachmentSource(uuid, ".txt"), utf8(output.value)), ItemUpdated]
    else []
  }

  /**
   * The context after the end of `StopTestCase`: the console output is
   * attached, then the test is stopped with NUnit's status and details. The
   * test keeps its identifiers, labels, links and title path and its item
   * its name, description and parameters; the console output lands among
   * the test's own attachments when no step or fixture is open.
   */
  function StoppedWithOutcome(c: Context, outcome: TestOutcome, output: Option<string>, uuid: string): (r: Context)
    requires c.Valid() && c.HasTest()
    ensures r.Valid() && r.HasTest()
    ensures r.test.value.(item := c.test.value.item) == c.test.value
    ensures var i, i0 := r.test.value.item, c.test.value.item;
            i.status == GetNUnitStatus(outcome) && i.statusDetails == TestStatusDetails(outcome)
            && i.name == i0.name && i.description == i0.description
            && i.descriptionHtml == i0.descriptionHtml && i.parameters == i0.parameters
    ensures !IsNullOrWhiteSpace(output) && !c.HasStep() && !c.HasFixture() ==>
              r.test.value.item.attachments == c.test.value.item.attachments + [ConsoleOutputAttachment(uuid)]
    ensures IsNullOrWhiteSpace(output) || c.HasStep() || c.HasFixture() ==>
              r.test.value.item.attachments == c.test.value.item.attachments
    ensures !c.HasFixture() ==> !r.HasStep()
  {
    ConsoleAttached(c, output, uuid).StopTestCase(SetOutcome(GetNUnitStatus(outcome), TestStatusDetails(outcome)))
  }

  /** The test after `UpdateTestDataFromNUnitProperties`, whose three walks succeed once a suite is reached. */
  function PropertiesTakenOver(t: TestResult, test: TestNode): (r: TestResult)
    requires ReachesSuite(test)
    ensures r.uuid == t.uuid && r.titlePath == t.titlePath && r.links == t.links && r.item.status == t.item.status
  {
    PropertiesFromSucceeds(test, "Description");
    PropertiesFromSucceeds(test, "Author");
    PropertiesFromSucceeds(test, "Category");
    WithNUnitProperties(t, PropertiesFrom(test, "Description").value, PropertiesFrom(test, "Author").value,
                        PropertiesFrom(test, "Category").value)
  }

  /** The test after `ApplyDefaultSuiteHierarchy`, named from the nearest fixture. */
  function DefaultSuitesApplied(t: TestResult, test: TestNode, ensureSuites: EnsureSuites): TestResult
    requires NearestFixture(Some(test)).Some?
  {
    var name := NearestFixture(Some(test)).value.fullName;
    WithSuites(ensureSuites, test.assemblyName, GetNamespace(name), GetClassName(name))(t)
  }

  /** The end of `StopTestCase`: the console output is attached, then the test is stopped with NUnit's outcome. */
  method StopWithOutcome(lc: Lifecycle, outcome: TestOutcome, output: Option<string>, utf8: string -> Bytes, uuid: string)
    requires lc.context.Valid() && lc.context.HasTest()
    modifies lc`context, lc`trace
    ensures lc.context.Valid() && lc.context.HasTest()
    ensures lc.context == StoppedWithOutcome(old(lc.context), outcome, output, uuid)
    ensures lc.trace == old(lc.trace) + ConsoleEvents(old(lc.context), output, utf8, uuid) + [TestStopped(GetNUnitStatus(outcome))]
    ensures lc.context.test.value.item.status == GetNUnitStatus(outcome)
    ensures lc.context.test.value.item.statusDetails == TestStatusDetails(outcome)
    ensures |lc.trace| > |old(lc.trace)| && lc.trace[..|old(lc.trace)|] == old(lc.trace)
    ensures lc.trace[|lc.trace| - 1] == TestStopped(GetNUnitStatus(outcome))
  {
    ghost var c0, t0 := lc.context, lc.trace;
    AddConsoleOutputAttachment(lc, output, utf8, uuid);
    assert lc.context == ConsoleAttached(c0, output, uuid);
    ghost var t1 := lc.trace;
    var status := GetNUnitStatus(outcome);
    var details := TestStatusDetails(outcome);
    lc.StopTestCase(SetOutcome(status, details));
    assert lc.trace == t1 + [TestStopped(status)];
    assert t1[..|t0|] == t0;
  }

  /** Extending an extension of `a` extends `a`. */
  lemma ExtendsTwice<T>(a: seq<T>, b: seq<T>, c: seq<T>)
    requires |a| <= |b| <= |c| && b[..|a|] == a && c[..|b|] == b
    ensures c[..|a|] == a
  {
    assert c[..|a|] == c[..|b|][..|a|];
  }

  /**
   * `StopTestCase`: takes over the NUnit properties, applies the default
   * suites, attaches the console output, then stops the test with the
   * classified status and its details. A failed walk stops it there.
   */
  method StopTestCase(lc: Lifecycle, test: TestNode, outcome: TestOutcome, output: Option<string>,
                      utf8: string -> Bytes, ensureSuites: EnsureSuites, uuid: string) returns (r: Result<(), Fault>)
    requires lc.context.Valid() && lc.context.HasTest()
    modifies lc`context, lc`trace
    ensures lc.context.Valid() && lc.context.HasTest()
    ensures r.Success? <==> ReachesSuite(test) && NearestFixture(Some(test)).Some?
    ensures !ReachesSuite(test) ==> lc.context == old(lc.context) && lc.trace == old(lc.trace)
    ensures ReachesSuite(test) && NearestFixture(Some(test)).None? ==>
      lc.context == old(lc.context).(test := Some(PropertiesTakenOver(old(lc.context).test.value, test)))
    ensures r.Success? ==>
      var taken := DefaultSuitesApplied(PropertiesTakenOver(old(lc.context).test.value, test), test, ensureSuites);
      lc.context == StoppedWithOutcome(old(lc.context).(test := Some(taken)), outcome, output, uuid)
    ensures r.Success? ==>
      lc.context.test.value.item.status == GetNUnitStatus(outcome)
      && lc.context.test.value.item.statusDetails == TestStatusDetails(outcome)
      && |lc.trace| > |old(lc.trace)| && lc.trace[..|old(lc.trace)|] == old(lc.trace)
      && lc.trace[|lc.trace| - 1] == TestStopped(GetNUnitStatus(outcome))
  {
    ghost var t0 := lc.trace;
    r := TakeOverTestData(lc, test, ensureSuites);
    if r.Failure? {
      return;
    }
    ghost var t2 := lc.trace;
    StopWithOutcome(lc, outcome, output, utf8, uuid);
    ExtendsTwice(t0, t2, lc.trace);
  }

  /** The start of `StopTestCase`: the NUnit properties, then the default suites. */
  method TakeOverTestData(lc: Lifecycle, test: TestNode, ensureSuites: EnsureSuites) returns (r: Result<(), Fault>)
    requires lc.context.Valid() && lc.context.HasTest()
    modifies lc`context, lc`trace
    ensures lc.context.Valid() && lc.context.HasTest()
    ensures r.Success? <==> ReachesSuite(test) && NearestFixture(Some(test)).Some?
    ensures !ReachesSuite(test) ==> lc.context == old(lc.context) && lc.trace == old(lc.trace)
    ensures ReachesSuite(test) && NearestFixture(Some(test)).None? ==>
      lc.context == old(lc.context).(test := Some(PropertiesTakenOver(old(lc.context).test.value, test)))
    ensures r.Success? ==>
      lc.context == old(lc.context).(test := Some(
        DefaultSuitesApplied(PropertiesTakenOver(old(lc.context).test.value, test), test, ensureSuites)))
    ensures |lc.trace| >= |old(lc.trace)| && lc.trace[..|old(lc.trace)|] == old(lc.trace)
  {
    ghost var t0 := lc.trace;
    r := UpdateTestDataFromNUnitProperties(lc, test);
    if r.Failure? {
      return;
    }
    ghost var t1 := lc.trace;
    assert t1[..|t0|] == t0;
    r := ApplyDefaultSuiteHierarchy(lc, test, ensureSuites);
    assert lc.trace[..|t1|] == t1;
    ExtendsTwice(t0, t1, lc.trace);
  }
}
