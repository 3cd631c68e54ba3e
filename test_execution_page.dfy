/**
 * The test-execution page: the status buttons' update request, the status
 * icon and badge, and the new-test-cycle form whose test cases come from
 * the page's selection (toggled with `Common.Toggle`).
 */
module TestExecutionPage {
  import opened Common
  import opened Schema
  import opened Storage
  import Routes

  /** The result text recorded with a status change. */
  function ResultForStatus(status: string): (r: string)
    ensures r == "Test failed" <==> status == "Failed"
    ensures r == "Test passed" <==> status == "Passed"
    ensures r == [] <==> status != "Failed" && status != "Passed"
  {
    if status == "Failed" then "Test failed" else if status == "Passed" then "Test passed" else ""
  }

  /**
   * The PATCH body of a status change: the status and its result. Comments
   * are left undefined, so the serialised body does not carry them.
   */
  function StatusChange(status: string): (p: ItemPatch)
    ensures p.status == Some(status) && p.result == Some(Some(ResultForStatus(status)))
    ensures p.id.None? && p.executionId.None? && p.testCaseId.None? && p.assignedTo.None?
    ensures p.comments.None? && p.executedBy.None? && p.executedAt.None?
  {
    ItemPatch(None, None, None, None, Some(status), Some(Some(ResultForStatus(status))), None, None, None)
  }

  /**
   * The page's own status changes carry no identity fields, so the update as
   * written and the corrected one store the same item: the new status and
   * result, the same comments and links, stamped with the requester and time.
   */
  lemma StatusChangeStored(item: TestExecutionItem, status: string, userId: int, now: int)
    ensures Merge(item, Routes.AsWrittenPatch(StatusChange(status), userId, now))
            == Merge(item, Routes.StatusPatch(StatusChange(status), userId, now))
    ensures var r := Merge(item, Routes.StatusPatch(StatusChange(status), userId, now));
            && r.status == status && r.result == Some(ResultForStatus(status)) && r.comments == item.comments
            && r.id == item.id && r.executionId == item.executionId && r.testCaseId == item.testCaseId
            && r.assignedTo == item.assignedTo && r.executedBy == Some(userId) && r.executedAt == Some(now)
  {
  }

  datatype Icon = CheckCircle | XCircle | AlertCircle | Clock

  /** The icon beside a status: "Not Run" and every unknown status share the clock. */
  function StatusIcon(status: string): (i: Icon)
    ensures i == CheckCircle <==> status == "Passed"
    ensures i == XCircle <==> status == "Failed"
    ensures i == AlertCircle <==> status == "Blocked"
  {
    if status == "Passed" then CheckCircle
    else if status == "Failed" then XCircle
    else if status == "Blocked" then AlertCircle
    else Clock
  }

  const Gray := "bg-gray-100 text-gray-800"

  const BadgeClasses: map<string, string> := map[
    "Passed" := "bg-green-100 text-green-800",
    "Failed" := "bg-red-100 text-red-800",
    "Blocked" := "bg-yellow-100 text-yellow-800",
    "Not Run" := Gray]

  /** The badge colour of a status, falling back to the "Not Run" colour. */
  function StatusBadgeClass(status: string): (c: string)
    ensures c in BadgeClasses.Values
    ensures status in BadgeClasses ==> c == BadgeClasses[status]
    ensures status !in BadgeClasses ==> c == BadgeClasses["Not Run"]
  {
    LookupOr(BadgeClasses, status, "Not Run")
  }

  /** Badge and icon agree: a status is drawn gray exactly when it is drawn with the clock. */
  lemma BadgeMatchesIcon(status: string)
    ensures StatusBadgeClass(status) == Gray <==> StatusIcon(status) == Clock
  {
    assert BadgeClasses["Passed"] != Gray && BadgeClasses["Failed"] != Gray && BadgeClasses["Blocked"] != Gray;
  }

  /** The new-test-cycle form; `status` is None when left undefined. */
  datatype ExecutionForm = ExecutionForm(
    name: string, description: Option<string>, status: Option<string>, testCaseIds: Option<seq<int>>)

  const ExecutionFormDefaults := ExecutionForm("", Some(""), Some("Not Started"), Some([]))

  /** The form schema: a non-empty name. */
  predicate ValidExecutionForm(f: ExecutionForm)
  {
    f.name != []
  }

  /**
   * The creation request: the validated form (status defaulting to
   * "Not Started") with `test_case_ids` replaced by the page's selection.
   */
  function CreateExecutionBody(f: ExecutionForm, selection: seq<int>): (b: ExecutionBody)
    ensures b.testCaseIds == Some(selection)
    ensures b.name == Some(f.name) && b.description == f.description
    ensures f.status.None? ==> b.status == Some("Not Started")
    ensures f.status.Some? ==> b.status == f.status
    ensures b.projectId.None? && b.createdBy.None?
  {
    var status := if f.status.Some? then f.status.value else "Not Started";
    ExecutionBody(Some(f.name), f.description, None, None, Some(status), Some(selection))
  }

  /** Submit is disabled while a request is pending or no test case is selected. */
  predicate SubmitDisabled(pending: bool, selection: seq<int>)
  {
    pending || |selection| == 0
  }

  /**
   * A submitted form is accepted once the handler fills in the project and the
   * requester; the execution keeps the form's name and status, and the
   * handler fans out over the selection, which is non-empty when submit is
   * enabled, whatever the form's own `test_case_ids` held.
   */
  lemma SubmittedExecutionAccepted(f: ExecutionForm, selection: seq<int>, projectId: int, userId: int)
    requires ValidExecutionForm(f) && !SubmitDisabled(false, selection)
    ensures var body := CreateExecutionBody(f, selection);
            var parsed := ParseExecution(body.(projectId := Some(projectId), createdBy := Some(userId)));
            && parsed.Parsed? && parsed.value.name == f.name && parsed.value.name != []
            && parsed.value.status == (if f.status.Some? then f.status.value else "Not Started")
            && parsed.value.projectId == projectId && parsed.value.createdBy == userId
            && body.testCaseIds == Some(selection) && |body.testCaseIds.value| >= 1
  {
  }

  /** The untouched form is refused, and its status is "Not Started". */
  lemma DefaultsNeedName()
    ensures !ValidExecutionForm(ExecutionFormDefaults)
    ensures CreateExecutionBody(ExecutionFormDefaults, [1]).status == Some("Not Started")
  {
  }
}
