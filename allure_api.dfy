/**
 * `AllureApi`: the facade test authors call to enrich the running test,
 * fixture or step. Every operation checks that its target is running and
 * otherwise changes nothing and calls nothing in the tracker.
 */
module AllureApi {
  import opened Wrappers
  import opened Model
  import opened Tracker
  import opened ExtendedApi

  /** Name pattern, media type and file extension of a screen-diff attachment. */
  const DiffNamePrefix: string := "diff-"
  const DiffMediaType: string := "application/vnd.allure.image.diff"
  const DiffFileExtension: string := ".json"

  /** `AllureConstants.ATTACHMENT_FILE_SUFFIX`, put between the uuid and the extension of an attachment file. */
  const AttachmentFileSuffix: string := "-attachment"

  type TestUpdate = TestResult -> TestResult

  /** The context after updating the running test with `f`; unchanged when no test runs. */
  function OnTest(c: Context, f: TestUpdate): (r: Context)
    ensures c.Valid() ==> r.Valid()
    ensures !c.HasTest() ==> r == c
    ensures c.HasTest() ==> r == c.(test := Some(f(c.test.value)))
  {
    if c.HasTest() then c.UpdateTestCase(f) else c
  }

  /** The tracker calls made by a guarded test update. */
  function OnTestEvents(c: Context): seq<Event> {
    if c.HasTest() then [TestUpdated] else []
  }

  /** Applies `f` to the running test, if there is one. */
  method UpdateRunningTest(lc: Lifecycle, f: TestUpdate)
    requires lc.context.Valid()
    modifies lc`context, lc`trace
    ensures lc.context.Valid() && lc.context == OnTest(old(lc.context), f)
    ensures lc.trace == old(lc.trace) + OnTestEvents(old(lc.context))
  {
    if lc.context.HasTest() {
      lc.UpdateTestCase(f);
    }
  }

  // Metadata.

  function RenameTest(newName: string): TestUpdate {
    (t: TestResult) => t.(item := t.item.(name := newName))
  }

  function Rename(newName: string): ItemUpdate {
    (item: ExecutableItem) => item.(name := newName)
  }

  function Describe(description: string): TestUpdate {
    (t: TestResult) => t.(item := t.item.(description := Some(description)))
  }

  function DescribeHtml(descriptionHtml: string): TestUpdate {
    (t: TestResult) => t.(item := t.item.(descriptionHtml := Some(descriptionHtml)))
  }

  function AppendLabels(labels: seq<Label>): TestUpdate {
    (t: TestResult) => t.(labels := t.labels + labels)
  }

  function AppendLinks(links: seq<Link>): TestUpdate {
    (t: TestResult) => t.(links := t.links + links)
  }

  function AppendParameter(parameter: Parameter): TestUpdate {
    (t: TestResult) => t.(item := t.item.(parameters := t.item.parameters + [parameter]))
  }

  method SetTestName(lc: Lifecycle, newName: string)
    requires lc.context.Valid()
    modifies lc`context, lc`trace
    ensures lc.context.Valid() && lc.context == OnTest(old(lc.context), RenameTest(newName))
    ensures lc.trace == old(lc.trace) + OnTestEvents(old(lc.context))
    ensures old(lc.context).HasTest() ==> lc.context.test.value.item.name == newName
  {
    UpdateRunningTest(lc, RenameTest(newName));
  }

  method SetFixtureName(lc: Lifecycle, newName: string)
    requires lc.context.Valid()
    modifies lc`context, lc`trace
    ensures lc.context.Valid()
    ensures old(lc.context).HasFixture() ==>
      lc.context == old(lc.context).UpdateFixture(Rename(newName)) && lc.trace == old(lc.trace) + [FixtureUpdated]
      && lc.context.fixture.value.name == newName
    ensures !old(lc.context).HasFixture() ==> lc.context == old(lc.context) && lc.trace == old(lc.trace)
  {
    if lc.context.HasFixture() {
      lc.UpdateFixture(Rename(newName));
    }
  }

  method SetStepName(lc: Lifecycle, newName: string)
    requires lc.context.Valid()
    modifies lc`context, lc`trace
    ensures lc.context.Valid()
    ensures old(lc.context).HasStep() ==>
      lc.context == old(lc.context).UpdateStep(Rename(newName)) && lc.trace == old(lc.trace) + [StepUpdated]
      && lc.context.steps[|lc.context.steps| - 1].name == newName
    ensures !old(lc.context).HasStep() ==> lc.context == old(lc.context) && lc.trace == old(lc.trace)
  {
    if lc.context.HasStep() {
      lc.UpdateStep(Rename(newName));
    }
  }

  method SetDescription(lc: Lifecycle, description: string)
    requires lc.context.Valid()
    modifies lc`context, lc`trace
    ensures lc.context.Valid() && lc.context == OnTest(old(lc.context), Describe(description))
    ensures lc.trace == old(lc.trace) + OnTestEvents(old(lc.context))
    ensures old(lc.context).HasTest() ==> lc.context.test.value.item.description == Some(description)
  {
    UpdateRunningTest(lc, Describe(description));
  }

  method SetDescriptionHtml(lc: Lifecycle, descriptionHtml: string)
    requires lc.context.Valid()
    modifies lc`context, lc`trace
    ensures lc.context.Valid() && lc.context == OnTest(old(lc.context), DescribeHtml(descriptionHtml))
    ensures lc.trace == old(lc.trace) + OnTestEvents(old(lc.context))
    ensures old(lc.context).HasTest() ==> lc.context.test.value.item.descriptionHtml == Some(descriptionHtml)
  {
    UpdateRunningTest(lc, DescribeHtml(descriptionHtml));
  }

  method AddLabels(lc: Lifecycle, labels: seq<Label>)
    requires lc.context.Valid()
    modifies lc`context, lc`trace
    ensures lc.context.Valid() && lc.context == OnTest(old(lc.context), AppendLabels(labels))
    ensures lc.trace == old(lc.trace) + OnTestEvents(old(lc.context))
    ensures old(lc.context).HasTest() ==> lc.context.test.value.labels == old(lc.context).test.value.labels + labels
  {
    UpdateRunningTest(lc, AppendLabels(labels));
  }

  /** `AddLabel(label)` and `AddLabel(name, value)`. */
  method AddLabel(lc: Lifecycle, newLabel: Label)
    requires lc.context.Valid()
    modifies lc`context, lc`trace
    ensures lc.context.Valid() && lc.context == OnTest(old(lc.context), AppendLabels([newLabel]))
    ensures lc.trace == old(lc.trace) + OnTestEvents(old(lc.context))
    ensures old(lc.context).HasTest() ==> lc.context.test.value.labels == old(lc.context).test.value.labels + [newLabel]
  {
    UpdateRunningTest(lc, AppendLabels([newLabel]));
  }

  // `SetLabel`: replace every label of the same name by the new one.

  /** The labels not named `name`, in their order. */
  function WithoutName(labels: seq<Label>, name: string): (r: seq<Label>)
    ensures forall l :: l in r <==> l in labels && l.name != name
    ensures |r| <= |labels|
  {
    if labels == [] then []
    else (if labels[0].name == name then [] else [labels[0]]) + WithoutName(labels[1..], name)
  }

  /** The labels after `SetLabel(label)`: the others in order, then `label`. */
  function WithLabel(labels: seq<Label>, newLabel: Label): (r: seq<Label>)
    ensures |r| > 0 && r[|r| - 1] == newLabel
    ensures forall l :: l in r && l.name == newLabel.name ==> l == newLabel
    ensures forall l :: l in labels && l.name != newLabel.name ==> l in r
    ensures forall l :: l in r ==> l in labels || l == newLabel
  {
    WithoutName(labels, newLabel.name) + [newLabel]
  }

  lemma {:induction false} WithoutNameAppend(xs: seq<Label>, ys: seq<Label>, name: string)
    ensures WithoutName(xs + ys, name) == WithoutName(xs, name) + WithoutName(ys, name)
  {
    if xs != [] {
      assert (xs + ys)[1..] == xs[1..] + ys;
      WithoutNameAppend(xs[1..], ys, name);
    } else {
      assert xs + ys == ys;
    }
  }

  lemma {:induction false} WithoutNameIdempotent(labels: seq<Label>, name: string)
    ensures WithoutName(WithoutName(labels, name), name) == WithoutName(labels, name)
  {
    if labels != [] {
      var head := if labels[0].name == name then [] else [labels[0]];
      WithoutNameAppend(head, WithoutName(labels[1..], name), name);
      WithoutNameIdempotent(labels[1..], name);
    }
  }

  /** Setting a label keeps exactly one label of its name: the new one, after the others. */
  lemma WithLabelSingle(labels: seq<Label>, newLabel: Label)
    ensures var r := WithLabel(labels, newLabel);
            forall i :: 0 <= i < |r| - 1 ==> r[i].name != newLabel.name
  {
    var r := WithLabel(labels, newLabel);
    forall i | 0 <= i < |r| - 1
      ensures r[i].name != newLabel.name
    {
      assert r[i] in WithoutName(labels, newLabel.name);
    }
  }

  /** Setting a label leaves the labels of other names, and their order, as they were. */
  lemma WithLabelKeepsOthers(labels: seq<Label>, newLabel: Label)
    ensures WithoutName(WithLabel(labels, newLabel), newLabel.name) == WithoutName(labels, newLabel.name)
  {
    WithoutNameAppend(WithoutName(labels, newLabel.name), [newLabel], newLabel.name);
    WithoutNameIdempotent(labels, newLabel.name);
  }

  /** Of two settings of labels with the same name, the later one wins outright. */
  lemma WithLabelOverrides(labels: seq<Label>, first: Label, second: Label)
    requires first.name == second.name
    ensures WithLabel(WithLabel(labels, first), second) == WithLabel(labels, second)
  {
    WithLabelKeepsOthers(labels, first);
  }

  function ReplaceLabel(newLabel: Label): TestUpdate {
    (t: TestResult) => t.(labels := WithLabel(t.labels, newLabel))
  }

  method SetLabel(lc: Lifecycle, newLabel: Label)
    requires lc.context.Valid()
    modifies lc`context, lc`trace
    ensures lc.context.Valid() && lc.context == OnTest(old(lc.context), ReplaceLabel(newLabel))
    ensures lc.trace == old(lc.trace) + OnTestEvents(old(lc.context))
    ensures old(lc.context).HasTest() ==> lc.context.test.value.labels == WithLabel(old(lc.context).test.value.labels, newLabel)
  {
    UpdateRunningTest(lc, ReplaceLabel(newLabel));
  }

  method SetSeverity(lc: Lifecycle, severity: SeverityLevel)
    requires lc.context.Valid()
    modifies lc`context, lc`trace
    ensures lc.context.Valid() && lc.context == OnTest(old(lc.context), ReplaceLabel(SeverityLabel(severity)))
    ensures lc.trace == old(lc.trace) + OnTestEvents(old(lc.context))
  {
    SetLabel(lc, SeverityLabel(severity));
  }

  method SetOwner(lc: Lifecycle, owner: string)
    requires lc.context.Valid()
    modifies lc`context, lc`trace
    ensures lc.context.Valid() && lc.context == OnTest(old(lc.context), ReplaceLabel(OwnerLabel(owner)))
    ensures lc.trace == old(lc.trace) + OnTestEvents(old(lc.context))
  {
    SetLabel(lc, OwnerLabel(owner));
  }

  method SetAllureId(lc: Lifecycle, allureId: int)
    requires lc.context.Valid()
    modifies lc`context, lc`trace
    ensures lc.context.Valid() && lc.context == OnTest(old(lc.context), ReplaceLabel(AllureIdLabel(allureId)))
    ensures lc.trace == old(lc.trace) + OnTestEvents(old(lc.context))
  {
    SetLabel(lc, AllureIdLabel(allureId));
  }

  /** One `tag` label per tag, in order. */
  function TagLabels(tags: seq<string>): (r: seq<Label>)
    ensures |r| == |tags|
    ensures forall i :: 0 <= i < |tags| ==> r[i] == TagLabel(tags[i])
  {
    if tags == [] then [] else [TagLabel(tags[0])] + TagLabels(tags[1..])
  }

  method AddTags(lc: Lifecycle, tags: seq<string>)
    requires lc.context.Valid()
    modifies lc`context, lc`trace
    ensures lc.context.Valid() && lc.context == OnTest(old(lc.context), AppendLabels(TagLabels(tags)))
    ensures lc.trace == old(lc.trace) + OnTestEvents(old(lc.context))
    ensures old(lc.context).HasTest() ==>
      var before := old(lc.context).test.value.labels;
      var after := lc.context.test.value.labels;
      |after| == |before| + |tags| && after[..|before|] == before
      && forall i :: 0 <= i < |tags| ==> after[|before| + i] == Label("tag", tags[i])
  {
    AddLabels(lc, TagLabels(tags));
  }

  // Suites and BDD labels: each adds one label of its kind.

  method AddParentSuite(lc: Lifecycle, parentSuite: string)
    requires lc.context.Valid()
    modifies lc`context, lc`trace
    ensures lc.context.Valid() && lc.context == OnTest(old(lc.context), AppendLabels([ParentSuiteLabel(parentSuite)]))
    ensures lc.trace == old(lc.trace) + OnTestEvents(old(lc.context))
  {
    AddLabel(lc, ParentSuiteLabel(parentSuite));
  }

  method AddSuite(lc: Lifecycle, suite: string)
    requires lc.context.Valid()
    modifies lc`context, lc`trace
    ensures lc.context.Valid() && lc.context == OnTest(old(lc.context), AppendLabels([SuiteLabel(suite)]))
    ensures lc.trace == old(lc.trace) + OnTestEvents(old(lc.context))
  {
    AddLabel(lc, SuiteLabel(suite));
  }

  method AddSubSuite(lc: Lifecycle, subSuite: string)
    requires lc.context.Valid()
    modifies lc`context, lc`trace
    ensures lc.context.Valid() && lc.context == OnTest(old(lc.context), AppendLabels([SubSuiteLabel(subSuite)]))
    ensures lc.trace == old(lc.trace) + OnTestEvents(old(lc.context))
  {
    AddLabel(lc, SubSuiteLabel(subSuite));
  }

  method AddEpic(lc: Lifecycle, epic: string)
    requires lc.context.Valid()
    modifies lc`context, lc`trace
    ensures lc.context.Valid() && lc.context == OnTest(old(lc.context), AppendLabels([EpicLabel(epic)]))
    ensures lc.trace == old(lc.trace) + OnTestEvents(old(lc.context))
  {
    AddLabel(lc, EpicLabel(epic));
  }

  method AddFeature(lc: Lifecycle, feature: string)
    requires lc.context.Valid()
    modifies lc`context, lc`trace
    ensures lc.context.Valid() && lc.context == OnTest(old(lc.context), AppendLabels([FeatureLabel(feature)]))
    ensures lc.trace == old(lc.trace) + OnTestEvents(old(lc.context))
  {
    AddLabel(lc, FeatureLabel(feature));
  }

  method AddStory(lc: Lifecycle, story: string)
    requires lc.context.Valid()
    modifies lc`context, lc`trace
    ensures lc.context.Valid() && lc.context == OnTest(old(lc.context), AppendLabels([StoryLabel(story)]))
    ensures lc.trace == old(lc.trace) + OnTestEvents(old(lc.context))
  {
    AddLabel(lc, StoryLabel(story));
  }

  // Links.

  method AddLinks(lc: Lifecycle, links: seq<Link>)
    requires lc.context.Valid()
    modifies lc`context, lc`trace
    ensures lc.context.Valid() && lc.context == OnTest(old(lc.context), AppendLinks(links))
    ensures lc.trace == old(lc.trace) + OnTestEvents(old(lc.context))
    ensures old(lc.context).HasTest() ==> lc.context.test.value.links == old(lc.context).test.value.links + links
  {
    UpdateRunningTest(lc, AppendLinks(links));
  }

  /** The three `AddLink` overloads: a missing name or type stays unset. */
  method AddLink(lc: Lifecycle, name: Option<string>, linkType: Option<string>, url: string)
    requires lc.context.Valid()
    modifies lc`context, lc`trace
    ensures lc.context.Valid() && lc.context == OnTest(old(lc.context), AppendLinks([Link(name, linkType, url)]))
    ensures lc.trace == old(lc.trace) + OnTestEvents(old(lc.context))
  {
    AddLinks(lc, [Link(name, linkType, url)]);
  }

  /** Both `AddIssue` overloads: a link of type `issue`. */
  method AddIssue(lc: Lifecycle, name: Option<string>, url: string)
    requires lc.context.Valid()
    modifies lc`context, lc`trace
    ensures lc.context.Valid() && lc.context == OnTest(old(lc.context), AppendLinks([Link(name, Some(IssueLinkType), url)]))
    ensures lc.trace == old(lc.trace) + OnTestEvents(old(lc.context))
  {
    AddLinks(lc, [Link(name, Some(IssueLinkType), url)]);
  }

  /** Both `AddTmsItem` overloads: a link of type `tms`. */
  method AddTmsItem(lc: Lifecycle, name: Option<string>, url: string)
    requires lc.context.Valid()
    modifies lc`context, lc`trace
    ensures lc.context.Valid() && lc.context == OnTest(old(lc.context), AppendLinks([Link(name, Some(TmsLinkType), url)]))
    ensures lc.trace == old(lc.trace) + OnTestEvents(old(lc.context))
  {
    AddLinks(lc, [Link(name, Some(TmsLinkType), url)]);
  }

  // Steps.

  /** `ExecuteStep`: runs the code as a step, through `ExecuteAction`. */
  method ExecuteStep<T>(lc: Lifecycle, name: string, action: Completion<T>) returns (r: Completion<T>)
    requires lc.context.Valid()
    modifies lc`context, lc`trace
    ensures r == action && lc.context.Valid()
    ensures lc.context == Executed(old(lc.context), name, AsStep, Resolution(FailExceptions(lc.failExceptions), action.ErrorOf()))
    ensures lc.trace == old(lc.trace)
      + ExecutedEvents(old(lc.context), name, AsStep, ResolveDetailedStatus(FailExceptions(lc.failExceptions), action.ErrorOf()).0)
  {
    r := ExecuteAction(lc, name, AsStep, action);
  }

  /**
   * `Step(name, action)` and `Step<T>(name, function)`: inside a test or
   * fixture, the code runs as a step that records its outcome; otherwise it
   * just runs. Either way the outcome passes through unchanged.
   */
  method Step<T>(lc: Lifecycle, name: string, action: Completion<T>) returns (r: Completion<T>)
    requires lc.context.Valid()
    modifies lc`context, lc`trace
    ensures r == action && lc.context.Valid()
    ensures old(lc.context).HasTestOrFixture() ==>
      var (status, details) := ResolveDetailedStatus(FailExceptions(lc.failExceptions), action.ErrorOf());
      lc.context == old(lc.context).UpdateExecutableItem(
        (p: ExecutableItem) => AppendChild(p, NewItem(name).(status := status, statusDetails := details)))
      && lc.trace == old(lc.trace) + [StepStarted(name), DelegateRan, StepStopped(status)]
    ensures !old(lc.context).HasTestOrFixture() ==> lc.context == old(lc.context) && lc.trace == old(lc.trace) + [DelegateRan]
  {
    if lc.context.HasTestOrFixture() {
      ExecutedStepRecords(lc.context, name, FailExceptions(lc.failExceptions), action.ErrorOf());
      r := ExecuteStep(lc, name, action);
    } else {
      lc.RunDelegate();
      r := action;
    }
  }

  /** `Step(name)`: an empty passed step, inside a test or fixture only. */
  method EmptyStep(lc: Lifecycle, name: string)
    requires lc.context.Valid()
    modifies lc`context, lc`trace
    ensures lc.context.Valid()
    ensures old(lc.context).HasTestOrFixture() ==>
      lc.context == old(lc.context).UpdateExecutableItem((p: ExecutableItem) => AppendChild(p, NewItem(name).(status := Passed)))
      && lc.trace == old(lc.trace) + [StepStarted(name), DelegateRan, StepStopped(Passed)]
    ensures !old(lc.context).HasTestOrFixture() ==> lc.context == old(lc.context) && lc.trace == old(lc.trace)
  {
    if lc.context.HasTestOrFixture() {
      var outcome: Completion<()> := Returned(());
      var _ := Step(lc, name, outcome);
    }
  }

  // Attachments.

  function AddAttachmentTo(attachment: Attachment): ItemUpdate {
    (item: ExecutableItem) => item.(attachments := item.attachments + [attachment])
  }

  /** The file an attachment's content is written to. */
  function AttachmentSource(uuid: string, fileExtension: string): string {
    uuid + AttachmentFileSuffix + fileExtension
  }

  /**
   * `AddAttachmentInternal`: writes the content under a fresh source name
   * (`uuid` stands for the generated UUID), then attaches it to the current
   * step container.
   */
  method AddAttachmentInternal(lc: Lifecycle, name: string, mediaType: string, content: Bytes, fileExtension: string, uuid: string)
    requires lc.context.Valid() && lc.context.HasTestOrFixture()
    modifies lc`context, lc`trace
    ensures lc.context.Valid()
    ensures lc.context == old(lc.context).UpdateExecutableItem(AddAttachmentTo(Attachment(name, mediaType, AttachmentSource(uuid, fileExtension))))
    ensures lc.context.CurrentStepContainer().attachments
         == old(lc.context).CurrentStepContainer().attachments + [Attachment(name, mediaType, AttachmentSource(uuid, fileExtension))]
    ensures lc.trace == old(lc.trace) + [Written(AttachmentSource(uuid, fileExtension), content), ItemUpdated]
  {
    var source := uuid + AttachmentFileSuffix + fileExtension;
    var attachment := Attachment(name, mediaType, source);
    lc.Write(source, content);
    lc.UpdateExecutableItem(AddAttachmentTo(attachment));
  }

  /** `AddAttachment(name, type, content, fileExtension)`. */
  method AddAttachment(lc: Lifecycle, name: string, mediaType: string, content: Bytes, fileExtension: string, uuid: string)
    requires lc.context.Valid()
    modifies lc`context, lc`trace
    ensures lc.context.Valid()
    ensures old(lc.context).HasTestOrFixture() ==>
      lc.context == old(lc.context).UpdateExecutableItem(AddAttachmentTo(Attachment(name, mediaType, AttachmentSource(uuid, fileExtension))))
      && lc.trace == old(lc.trace) + [Written(AttachmentSource(uuid, fileExtension), content), ItemUpdated]
    ensures !old(lc.context).HasTestOrFixture() ==> lc.context == old(lc.context) && lc.trace == old(lc.trace)
  {
    if lc.context.HasTestOrFixture() {
      AddAttachmentInternal(lc, name, mediaType, content, fileExtension, uuid);
    }
  }

  /**
   * The two file-path overloads of `AddAttachment`: `fileName`, `fileExtension`
   * and `content` are what the file system gives for the path, `mediaType` the
   * given type or the one guessed from the path. A missing name falls back to
   * the file's name.
   */
  method AddAttachmentFromFile(
    lc: Lifecycle, name: Option<string>, mediaType: string,
    fileName: string, fileExtension: string, content: Bytes, uuid: string)
    requires lc.context.Valid()
    modifies lc`context, lc`trace
    ensures lc.context.Valid()
    ensures old(lc.context).HasTestOrFixture() ==>
      lc.context == old(lc.context).UpdateExecutableItem(
        AddAttachmentTo(Attachment(name.GetOr(fileName), mediaType, AttachmentSource(uuid, fileExtension))))
      && lc.trace == old(lc.trace) + [Written(AttachmentSource(uuid, fileExtension), content), ItemUpdated]
    ensures !old(lc.context).HasTestOrFixture() ==> lc.context == old(lc.context) && lc.trace == old(lc.trace)
  {
    if lc.context.HasTestOrFixture() {
      AddAttachmentInternal(lc, name.GetOr(fileName), mediaType, content, fileExtension, uuid);
    }
  }

  /** How many of `attachments` are screen diffs. */
  function CountDiffs(attachments: seq<Attachment>): (r: nat)
    ensures r <= |attachments|
  {
    if attachments == [] then 0
    else CountDiffs(attachments[..|attachments| - 1]) + (if attachments[|attachments| - 1].mediaType == DiffMediaType then 1 else 0)
  }

  /** The name of the screen diff that follows `k` earlier ones: `diff-{k+1}`. */
  function DiffName(k: nat): string {
    DiffNamePrefix + NatToString(k + 1)
  }

  /** Adding a screen diff raises the count by one, anything else leaves it. */
  lemma CountDiffsAppend(attachments: seq<Attachment>, a: Attachment)
    ensures CountDiffs(attachments + [a]) == CountDiffs(attachments) + (if a.mediaType == DiffMediaType then 1 else 0)
  {
    assert (attachments + [a])[..|attachments|] == attachments;
  }

  /** Screen diffs numbered differently get different names. */
  lemma DiffNamesDistinct(j: nat, k: nat)
    requires j != k
    ensures DiffName(j) != DiffName(k)
  {
    NatToStringInjective(j + 1, k + 1);
    assert DiffName(j)[|DiffNamePrefix|..] == NatToString(j + 1);
    assert DiffName(k)[|DiffNamePrefix|..] == NatToString(k + 1);
  }

  /**
   * `AddScreenDiff` (the byte overload, and the path overload once the files
   * are read): attaches the diff document under the next `diff-N` name of the
   * current step container. `document` stands for the JSON of the three
   * Base64 images.
   */
  method AddScreenDiff(lc: Lifecycle, expectedPng: Bytes, actualPng: Bytes, diffPng: Bytes,
                       document: (Bytes, Bytes, Bytes) -> Bytes, uuid: string)
    requires lc.context.Valid()
    modifies lc`context, lc`trace
    ensures lc.context.Valid()
    ensures old(lc.context).HasTestOrFixture() ==>
      var k := CountDiffs(old(lc.context).CurrentStepContainer().attachments);
      var diff := Attachment(DiffName(k), DiffMediaType, AttachmentSource(uuid, DiffFileExtension));
      lc.context == old(lc.context).UpdateExecutableItem(AddAttachmentTo(diff))
      && CountDiffs(lc.context.CurrentStepContainer().attachments) == k + 1
      && lc.trace == old(lc.trace) + [Written(diff.source, document(expectedPng, actualPng, diffPng)), ItemUpdated]
    ensures !old(lc.context).HasTestOrFixture() ==> lc.context == old(lc.context) && lc.trace == old(lc.trace)
  {
    if lc.context.HasTestOrFixture() {
      var k := CountDiffs(lc.context.CurrentStepContainer().attachments);
      var diff := Attachment(DiffName(k), DiffMediaType, AttachmentSource(uuid, DiffFileExtension));
      CountDiffsAppend(lc.context.CurrentStepContainer().attachments, diff);
      AddAttachment(lc, DiffName(k), DiffMediaType, document(expectedPng, actualPng, diffPng), DiffFileExtension, uuid);
    }
  }

  // Parameters.

  /**
   * The four `AddTestParameter(name, value, ...)` overloads: the value is
   * formatted by the type formatters only when a test runs; mode and
   * exclusion are left unset/false when not given.
   */
  method AddTestParameter<V>(lc: Lifecycle, name: string, value: V, format: V -> string,
                             mode: Option<ParameterMode>, excluded: bool)
    requires lc.context.Valid()
    modifies lc`context, lc`trace
    ensures lc.context.Valid()
    ensures lc.context == OnTest(old(lc.context), AppendParameter(Parameter(name, format(value), mode, excluded)))
    ensures old(lc.context).HasTest() ==>
      lc.context.test.value.item.parameters
        == old(lc.context).test.value.item.parameters + [Parameter(name, format(value), mode, excluded)]
      && lc.trace == old(lc.trace) + [ValueFormatted, TestUpdated]
    ensures !old(lc.context).HasTest() ==> lc.trace == old(lc.trace)
  {
    if lc.context.HasTest() {
      var text := lc.Format(format, value);
      UpdateRunningTest(lc, AppendParameter(Parameter(name, text, mode, excluded)));
    }
  }

  /** `AddTestParameter(parameter)`. */
  method AddParameter(lc: Lifecycle, parameter: Parameter)
    requires lc.context.Valid()
    modifies lc`context, lc`trace
    ensures lc.context.Valid() && lc.context == OnTest(old(lc.context), AppendParameter(parameter))
    ensures lc.trace == old(lc.trace) + OnTestEvents(old(lc.context))
    ensures old(lc.context).HasTest() ==>
      lc.context.test.value.item.parameters == old(lc.context).test.value.item.parameters + [parameter]
  {
    UpdateRunningTest(lc, AppendParameter(parameter));
  }
}
