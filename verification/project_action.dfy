/**
 * The create-project server action. The schema coerces `versionId` to a
 * number that must be at least 1, requires a non-empty region and name,
 * requires both dates to be non-empty YYYY-MM-DD strings and, when no field
 * failed its type test, refines the object by requiring the end date not to
 * precede the start date, reporting that under `endDate`.
 */
module ProjectAction {
  import opened Wrappers
  import opened Js
  import opened Schema
  import opened Api
  import opened Messages


  /** `Object.fromEntries(formData.entries())`; a missing entry is `undefined`. */
  datatype ProjectForm = ProjectForm(
    versionId: Option<string>,
    region: Option<string>,
    name: Option<string>,
    startDate: Option<string>,
    endDate: Option<string>)

  /** The keys of the project form's field errors. */
  datatype ProjectField = VersionId | Region | Name | StartDate | EndDate

  /** What the backend receives: the parsed data, with `versionId` as a number. */
  datatype NewProjectRequest = NewProjectRequest(
    versionId: real, region: string, name: string, startDate: string, endDate: string)

  datatype NewProjectFormState = NewProjectFormState(
    message: Message,
    errors: map<ProjectField, seq<Message>>,
    formData: ProjectForm,
    success: bool)

  /** `z.coerce.number().min(1)`: NaN fails the type test; any number below 1 fails the minimum. */
  function VersionCheck(v: Option<string>): (c: FieldCheck<real>)
    ensures c.Aborted? <==> FormValueToNumber(v).NaN?
    ensures c.Ok() <==> FormValueToNumber(v).Finite? && FormValueToNumber(v).value >= 1.0
  {
    match FormValueToNumber(v)
    case NaN => Aborted([Expected(NumberType, NaNType)])
    case Finite(n) => Checked(n, if n < 1.0 then [VersionRequired] else [])
  }

  /** `yyyyMmDdSchema`: both checks run, so an empty string gets both messages. */
  function DateCheck(v: Option<string>): (c: FieldCheck<string>)
    ensures c.Aborted? <==> v.None?
    ensures c.Ok() <==> v.Some? && IsYmd(v.value)
    ensures v == Some("") ==> c.messages == [DateRequired, DateFormat]
  {
    match v
    case None => Aborted([Required])
    case Some(s) =>
      Checked(s, (if s == "" then [DateRequired] else []) + (if IsYmd(s) then [] else [DateFormat]))
  }

  function RegionCheck(f: ProjectForm): FieldCheck<string> {
    NonEmptyString(f.region, Required, RegionRequired)
  }

  function NameCheck(f: ProjectForm): FieldCheck<string> {
    NonEmptyString(f.name, Required, ProjectNameRequired)
  }

  /** The refinement runs when no field failed its type test. */
  predicate RefinementRuns(f: ProjectForm) {
    !VersionCheck(f.versionId).Aborted? && f.region.Some? && f.name.Some?
    && f.startDate.Some? && f.endDate.Some?
  }

  /** Messages reported under `endDate`: its own checks, then the refinement's. */
  function EndDateMessages(f: ProjectForm): seq<Message> {
    DateCheck(f.endDate).messages
    + (if RefinementRuns(f) && !DateNotBefore(f.startDate.value, f.endDate.value) then [EndBeforeStart] else [])
  }

  /** Messages the project schema reports under `field`. */
  function ProjectMessages(f: ProjectForm, field: ProjectField): seq<Message> {
    match field
    case VersionId => VersionCheck(f.versionId).messages
    case Region => RegionCheck(f).messages
    case Name => NameCheck(f).messages
    case StartDate => DateCheck(f.startDate).messages
    case EndDate => EndDateMessages(f)
  }

  const ProjectFields: set<ProjectField> := {VersionId, Region, Name, StartDate, EndDate}

  /** The flattened field errors of the project schema. */
  function ProjectErrors(f: ProjectForm): map<ProjectField, seq<Message>> {
    Flatten(ProjectFields, field => ProjectMessages(f, field))
  }

  /** The project schema, stated directly. */
  predicate ValidProject(f: ProjectForm) {
    && FormValueToNumber(f.versionId).Finite? && FormValueToNumber(f.versionId).value >= 1.0
    && f.region.Some? && f.region.value != ""
    && f.name.Some? && f.name.value != ""
    && f.startDate.Some? && IsYmd(f.startDate.value)
    && f.endDate.Some? && IsYmd(f.endDate.value)
    && DateNotBefore(f.startDate.value, f.endDate.value)
  }

  lemma ValidFromChecks(f: ProjectForm)
    requires forall k :: k in ProjectFields ==> ProjectMessages(f, k) == []
    ensures ValidProject(f)
  {
    assert ProjectMessages(f, VersionId) == [] && ProjectMessages(f, Region) == [];
    assert ProjectMessages(f, Name) == [] && ProjectMessages(f, StartDate) == [];
    assert ProjectMessages(f, EndDate) == [];
  }

  lemma ChecksFromValid(f: ProjectForm)
    requires ValidProject(f)
    ensures forall k :: k in ProjectFields ==> ProjectMessages(f, k) == []
  {
    assert VersionCheck(f.versionId).Ok();
    assert DateCheck(f.startDate).Ok() && DateCheck(f.endDate).Ok();
  }

  /** The schema reports no error exactly for input satisfying the rules stated directly. */
  lemma ProjectErrorsIff(f: ProjectForm)
    ensures ProjectErrors(f) == map[] <==> ValidProject(f)
  {
    if ValidProject(f) {
      ChecksFromValid(f);
    }
    if ProjectErrors(f) == map[] {
      ValidFromChecks(f);
    }
  }

  /** An empty `versionId` coerces to 0 and is reported under `versionId`. */
  lemma EmptyVersionRejected(f: ProjectForm)
    requires f.versionId == Some("")
    ensures ProjectErrors(f)[VersionId] == [VersionRequired]
    ensures !ValidProject(f)
  {
    BlankIsZero("");
  }

  /** Well-formed dates in the wrong order are reported under `endDate` only. */
  lemma EndBeforeStartReportedUnderEndDate(f: ProjectForm)
    requires RefinementRuns(f)
    requires IsYmd(f.startDate.value) && IsYmd(f.endDate.value)
    requires !LexLessOrEqual(f.startDate.value, f.endDate.value)
    ensures ProjectErrors(f)[EndDate] == [EndBeforeStart]
    ensures StartDate !in ProjectErrors(f)
  {
    assert !DateNotBefore(f.startDate.value, f.endDate.value);
    OrderOnlyFailure(f);
  }

  lemma OrderOnlyFailure(f: ProjectForm)
    requires RefinementRuns(f)
    requires IsYmd(f.startDate.value) && IsYmd(f.endDate.value)
    requires !DateNotBefore(f.startDate.value, f.endDate.value)
    ensures ProjectMessages(f, EndDate) == [EndBeforeStart]
    ensures ProjectMessages(f, StartDate) == []
  {
    assert DateCheck(f.endDate).Ok() && DateCheck(f.startDate).Ok();
  }

  /**
   * Because the refinement also runs on input that already has failures,
   * an empty start date makes the otherwise valid end date fail too.
   */
  lemma EmptyStartAlsoFlagsEnd(f: ProjectForm)
    requires RefinementRuns(f) && f.startDate == Some("") && IsYmd(f.endDate.value)
    ensures ProjectErrors(f)[StartDate] == [DateRequired, DateFormat]
    ensures ProjectErrors(f)[EndDate] == [EndBeforeStart]
  {
    assert !IsYmd("");
    assert DateCheck(f.endDate).Ok();
    assert EndDateMessages(f) == [EndBeforeStart];
    assert ProjectMessages(f, StartDate) == [DateRequired, DateFormat];
  }

  /** A field that fails its type test stops the refinement: no ordering message. */
  lemma MissingFieldSkipsRefinement(f: ProjectForm)
    requires f.name.None? && f.endDate.Some?
    ensures EndDateMessages(f) == DateCheck(f.endDate).messages
  {
  }

  /** The echo after a validation failure: raw input, with a missing `versionId` as "". */
  function FailureEcho(f: ProjectForm): ProjectForm
  {
    f.(versionId := Some(f.versionId.GetOr("")))
  }

  function CreateProjectAction<D>(f: ProjectForm, backend: NewProjectRequest -> Outcome<Envelope<D>>)
    : (run: Run<NewProjectRequest, NewProjectFormState>)
    ensures run.sent.Some? <==> ValidProject(f)
    ensures run.sent.Some? ==> run.sent.value == NewProjectRequest(
      FormValueToNumber(f.versionId).value, f.region.value, f.name.value, f.startDate.value, f.endDate.value)
    ensures !ValidProject(f) ==>
      run.state == NewProjectFormState(InputRecheck, ProjectErrors(f), FailureEcho(f), false)
      && run.state.errors != map[]
    ensures ValidProject(f) ==> run.state.errors == map[]
    ensures ValidProject(f) ==> (run.state.success <==> backend(run.sent.value).Returned?)
    ensures ValidProject(f) && backend(run.sent.value).Returned? ==>
      run.state.message == Server(backend(run.sent.value).response.message)
      && run.state.formData == ProjectForm(Some(""), Some(""), Some(""), Some(""), Some(""))
    ensures ValidProject(f) && !backend(run.sent.value).Returned? ==>
      run.state.message == ThrownMessage(backend(run.sent.value), ConnectionFallback)
      && run.state.formData == f
  {
    ProjectErrorsIff(f);
    if !ValidProject(f) then
      Run(None, NewProjectFormState(InputRecheck, ProjectErrors(f), FailureEcho(f), false))
    else
      var request := NewProjectRequest(
        FormValueToNumber(f.versionId).value, f.region.value, f.name.value, f.startDate.value, f.endDate.value);
      match backend(request)
      case Returned(response) =>
        var cleared := ProjectForm(Some(""), Some(""), Some(""), Some(""), Some(""));
        Run(Some(request), NewProjectFormState(Server(response.message), map[], cleared, true))
      case ThrewApiError(m) =>
        Run(Some(request), NewProjectFormState(Server(m), map[], f, false))
      case ThrewOther =>
        Run(Some(request), NewProjectFormState(ConnectionFallback, map[], f, false))
  }
}
