/**
 * The material inbound server action. On a validation failure the issues
 * are folded, in order, into a sparse per-row table of field messages
 * (`rowErrors`); only issues whose path names a row index and a field
 * contribute. On success the parsed items are posted to the backend.
 */
module MaterialAction {
  import opened Wrappers
  import opened Api
  import opened Messages
  import opened MaterialSchema

  /** The messages of one row, by field. */
  type RowError = map<ItemField, Message>

  /**
   * The `rowErrors` array: `None` is a hole, an index never assigned below
   * the largest assigned one.
   */
  type RowErrors = seq<Option<RowError>>

  /** The loop's guard: the issue's path starts with a row index followed by a field name. */
  predicate IsRowIssue(issue: Issue) {
    |issue.path| >= 2 && issue.path[0].Index? && issue.path[1].Field?
  }

  predicate Targets(issue: Issue, row: nat, field: ItemField) {
    IsRowIssue(issue) && issue.path[0].i == row && issue.path[1].f == field
  }

  predicate TargetsRow(issue: Issue, row: nat) {
    IsRowIssue(issue) && issue.path[0].i == row
  }

  /** One step of the loop: make sure row `rowIndex` holds an entry, then set the field. */
  function Record(rows: RowErrors, issue: Issue): RowErrors {
    if !IsRowIssue(issue) then rows
    else
      var rowIndex := issue.path[0].i;
      var grown := if rowIndex < |rows| then rows else rows + seq(rowIndex + 1 - |rows|, _ => None);
      var entry := if grown[rowIndex].Some? then grown[rowIndex].value else map[];
      grown[rowIndex := Some(entry[issue.path[1].f := issue.message])]
  }

  /** The table the loop builds from `issues`, one issue at a time from the first. */
  function Aggregate(issues: seq<Issue>): RowErrors {
    if issues == [] then [] else Record(Aggregate(issues[..|issues| - 1]), issues[|issues| - 1])
  }

  /** The `forEach` over the issues, updating `rowErrors` in place. */
  method CollectRowErrors(issues: seq<Issue>) returns (rowErrors: RowErrors)
    ensures rowErrors == Aggregate(issues)
  {
    rowErrors := [];
    var j := 0;
    while j < |issues|
      invariant 0 <= j <= |issues|
      invariant rowErrors == Aggregate(issues[..j])
    {
      var issue := issues[j];
      if IsRowIssue(issue) {
        var rowIndex := issue.path[0].i;
        var fieldName := issue.path[1].f;
        if rowIndex >= |rowErrors| {
          rowErrors := rowErrors + seq(rowIndex + 1 - |rowErrors|, _ => None);
        }
        if rowErrors[rowIndex].None? {
          rowErrors := rowErrors[rowIndex := Some(map[])];
        }
        rowErrors := rowErrors[rowIndex := Some(rowErrors[rowIndex].value[fieldName := issue.message])];
      }
      assert issues[..j + 1][..j] == issues[..j];
      j := j + 1;
    }
    assert issues[..j] == issues;
  }

  /** A row issue always leaves an entry for its row holding its field. */
  lemma RecordedRowPresent(rows: RowErrors, issue: Issue)
    requires IsRowIssue(issue)
    ensures issue.path[0].i < |Record(rows, issue)|
    ensures Record(rows, issue)[issue.path[0].i] == Some(
      (if issue.path[0].i < |rows| && rows[issue.path[0].i].Some? then rows[issue.path[0].i].value else map[])
      [issue.path[1].f := issue.message])
  {
  }

  /** `Record` changes only the issue's row, and only grows the table. */
  lemma RecordFrame(rows: RowErrors, issue: Issue, row: nat)
    requires row < |rows|
    requires !TargetsRow(issue, row)
    ensures row < |Record(rows, issue)| && Record(rows, issue)[row] == rows[row]
  {
  }

  lemma RecordNewSlots(rows: RowErrors, issue: Issue, row: nat)
    requires |rows| <= row < |Record(rows, issue)|
    requires !TargetsRow(issue, row)
    ensures Record(rows, issue)[row].None?
  {
  }

  /** The last issue aimed at a row and field decides that field's message. */
  lemma {:induction false} LastWriteWins(issues: seq<Issue>, row: nat, field: ItemField, k: nat)
    requires k < |issues| && Targets(issues[k], row, field)
    requires forall m :: k < m < |issues| ==> !Targets(issues[m], row, field)
    ensures row < |Aggregate(issues)| && Aggregate(issues)[row].Some?
    ensures field in Aggregate(issues)[row].value
    ensures Aggregate(issues)[row].value[field] == issues[k].message
    decreases |issues|
  {
    var init := issues[..|issues| - 1];
    var last := issues[|issues| - 1];
    if k == |issues| - 1 {
      RecordedRowPresent(Aggregate(init), last);
    } else {
      assert init[k] == issues[k];
      LastWriteWins(init, row, field, k);
      if TargetsRow(last, row) {
        RecordedRowPresent(Aggregate(init), last);
      } else {
        RecordFrame(Aggregate(init), last, row);
      }
    }
  }

  /** A field no issue aims at is absent from its row. */
  lemma {:induction false} UnwrittenFieldAbsent(issues: seq<Issue>, row: nat, field: ItemField)
    requires forall m :: 0 <= m < |issues| ==> !Targets(issues[m], row, field)
    ensures row < |Aggregate(issues)| && Aggregate(issues)[row].Some? ==>
      field !in Aggregate(issues)[row].value
    decreases |issues|
  {
    if issues != [] {
      var init := issues[..|issues| - 1];
      var last := issues[|issues| - 1];
      assert forall m :: 0 <= m < |init| ==> init[m] == issues[m];
      UnwrittenFieldAbsent(init, row, field);
      if TargetsRow(last, row) {
        RecordedRowPresent(Aggregate(init), last);
      } else if row < |Aggregate(init)| {
        RecordFrame(Aggregate(init), last, row);
      } else if row < |Record(Aggregate(init), last)| {
        RecordNewSlots(Aggregate(init), last, row);
      }
    }
  }

  /** A row no issue aims at is a hole, and the table ends at the last row aimed at. */
  lemma {:induction false} UntargetedRowIsHole(issues: seq<Issue>, row: nat)
    requires forall m :: 0 <= m < |issues| ==> !TargetsRow(issues[m], row)
    ensures row < |Aggregate(issues)| ==> Aggregate(issues)[row].None?
    decreases |issues|
  {
    if issues != [] {
      var init := issues[..|issues| - 1];
      var last := issues[|issues| - 1];
      assert forall m :: 0 <= m < |init| ==> init[m] == issues[m];
      UntargetedRowIsHole(init, row);
      if row < |Aggregate(init)| {
        RecordFrame(Aggregate(init), last, row);
      } else if row < |Record(Aggregate(init), last)| {
        RecordNewSlots(Aggregate(init), last, row);
      }
    }
  }

  /** The table is exactly long enough for the largest row aimed at. */
  lemma {:induction false} LastSlotTargeted(issues: seq<Issue>)
    requires |Aggregate(issues)| > 0
    ensures exists m :: 0 <= m < |issues| && TargetsRow(issues[m], |Aggregate(issues)| - 1)
    decreases |issues|
  {
    var init := issues[..|issues| - 1];
    var last := issues[|issues| - 1];
    if IsRowIssue(last) && last.path[0].i + 1 >= |Aggregate(init)| {
      assert TargetsRow(issues[|issues| - 1], |Aggregate(issues)| - 1);
    } else {
      LastSlotTargeted(init);
      var m :| 0 <= m < |init| && TargetsRow(init[m], |Aggregate(init)| - 1);
      assert issues[m] == init[m];
    }
  }

  /** Without a row issue the table stays empty. */
  lemma {:induction false} NoRowIssuesNoRows(issues: seq<Issue>)
    requires forall m :: 0 <= m < |issues| ==> !IsRowIssue(issues[m])
    ensures Aggregate(issues) == []
    decreases |issues|
  {
    if issues != [] {
      var init := issues[..|issues| - 1];
      assert forall m :: 0 <= m < |init| ==> init[m] == issues[m];
      NoRowIssuesNoRows(init);
    }
  }

  datatype InboundRequest = InboundRequest(projectId: int, materials: seq<MaterialItem>)

  datatype InboundFormState = InboundFormState(message: Message, errors: Option<RowErrors>, success: bool)

  /** `response.message || default`: an empty message falls back to the fixed text. */
  function MessageOrRegistered(text: string): Message
  {
    if text == "" then InboundRegistered else Server(text)
  }

  method CreateMaterialInboundAction<D>(projectId: int, materialsData: Option<string>,
                                        parse: string -> Option<Json>,
                                        backend: InboundRequest -> Outcome<Envelope<D>>)
    returns (sent: Option<InboundRequest>, state: InboundFormState)
    ensures sent.Some? <==> ValidMaterials(materialsData, parse)
    ensures sent.Some? ==>
      var items := parse(materialsData.value).value.items;
      sent.value == InboundRequest(projectId, ToItems(items))
    ensures !ValidMaterials(materialsData, parse) ==>
      state == InboundFormState(InputRecheck, Some(Aggregate(MaterialIssues(materialsData, parse))), false)
    ensures sent.Some? && backend(sent.value).Returned? ==>
      state == InboundFormState(MessageOrRegistered(backend(sent.value).response.message), Some([]), true)
    ensures sent.Some? && !backend(sent.value).Returned? ==>
      state == InboundFormState(ThrownMessage(backend(sent.value), InboundFallback), None, false)
  {
    var issues := MaterialIssues(materialsData, parse);
    MaterialIssuesEmptyIff(materialsData, parse);
    if issues != [] {
      var rowErrors := CollectRowErrors(issues);
      return None, InboundFormState(InputRecheck, Some(rowErrors), false);
    }
    var request := InboundRequest(projectId, ToItems(parse(materialsData.value).value.items));
    sent := Some(request);
    match backend(request)
    case Returned(response) =>
      state := InboundFormState(MessageOrRegistered(response.message), Some([]), true);
    case ThrewApiError(m) =>
      state := InboundFormState(Server(m), None, false);
    case ThrewOther =>
      state := InboundFormState(InboundFallback, None, false);
  }

  /** A missing, empty, unparseable, non-array or empty-array input fails with no row entries. */
  lemma WholeInputFailureHasNoRows(materialsData: Option<string>, parse: string -> Option<Json>)
    requires !(materialsData.Some? && materialsData.value != "" && parse(materialsData.value).Some?
               && parse(materialsData.value).value.JArray? && |parse(materialsData.value).value.items| >= 1)
    ensures !ValidMaterials(materialsData, parse)
    ensures Aggregate(MaterialIssues(materialsData, parse)) == []
  {
    IssueShape(materialsData, parse);
    NoRowIssuesNoRows(MaterialIssues(materialsData, parse));
  }

  /** The table never reaches past the parsed array. */
  lemma RowsWithinItems(materialsData: Option<string>, parse: string -> Option<Json>)
    requires materialsData.Some? && materialsData.value != "" && parse(materialsData.value).Some?
    requires parse(materialsData.value).value.JArray?
    ensures |Aggregate(MaterialIssues(materialsData, parse))| <= |parse(materialsData.value).value.items|
  {
    var issues := MaterialIssues(materialsData, parse);
    IssueShape(materialsData, parse);
    if |Aggregate(issues)| > 0 {
      LastSlotTargeted(issues);
    }
  }

  /** Two issues on the same row and field: the table holds only the second message. */
  lemma SecondWriteOverwrites(f: ItemField, m1: Message, m2: Message)
    ensures Aggregate([Issue([Index(0), Field(f)], m1), Issue([Index(0), Field(f)], m2)]) == [Some(map[f := m2])]
  {
    var issues := [Issue([Index(0), Field(f)], m1), Issue([Index(0), Field(f)], m2)];
    var first: RowError := map[f := m1];
    assert issues[..1] == [issues[0]];
    assert Aggregate(issues[..1]) == [Some(first)];
    assert first[f := m2] == map[f := m2];
  }

  /**
   * A quantity of 0.5 fails both the integer and the minimum check; the
   * second issue overwrites the first, so the row shows only the minimum message.
   */
  lemma FractionShowsOnlyMinimumMessage(text: string, parse: string -> Option<Json>)
    requires text != ""
    requires parse(text) == Some(JArray([JObject(map[
      DrawingNumber.Key() := JString("A"), ItemName.Key() := JString("B"), Quantity.Key() := JNumber(0.5)])]))
    ensures Aggregate(MaterialIssues(Some(text), parse)) == [Some(map[Quantity := QuantityAtLeastOne])]
  {
    FractionQuantityIssues(text, parse);
    SecondWriteOverwrites(Quantity, Expected(IntegerType, FloatType), QuantityAtLeastOne);
  }
}
