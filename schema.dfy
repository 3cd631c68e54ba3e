/**
 * Record shapes of the eight tables and the insert schemas picked from them.
 *
 * A record carries the table's columns; the matching Insert datatype carries
 * exactly the columns its insert schema picks, so `id`, `created_at` and
 * `updated_at` can never come from a caller: the store stamps them. Nullable
 * columns are `Option`; timestamps are the clock value handed to the store.
 *
 * A request body is modelled as the fields the insert schema reads, each
 * `Option` (None: absent or null). Parsing a body succeeds exactly when every
 * required column is present; otherwise it reports every missing column.
 */
module Schema {
  import opened Common

  /** One element of a test case's `steps` (jsonb) column. */
  datatype Step = Step(id: int, action: string, expectedResult: string)

  datatype User = User(id: int, username: string, password: string, email: string, name: Option<string>, createdAt: int)
  {
    function Insert(): InsertUser { InsertUser(username, password, email, name) }
  }
  datatype InsertUser = InsertUser(username: string, password: string, email: string, name: Option<string>)

  datatype Workspace = Workspace(id: int, name: string, description: Option<string>, createdBy: int, createdAt: int)
  {
    function Insert(): InsertWorkspace { InsertWorkspace(name, description, createdBy) }
  }
  datatype InsertWorkspace = InsertWorkspace(name: string, description: Option<string>, createdBy: int)

  datatype WorkspaceMember = WorkspaceMember(id: int, workspaceId: int, userId: int, role: string)
  {
    function Insert(): InsertWorkspaceMember { InsertWorkspaceMember(workspaceId, userId, role) }
  }
  datatype InsertWorkspaceMember = InsertWorkspaceMember(workspaceId: int, userId: int, role: string)

  datatype Project = Project(id: int, name: string, description: Option<string>, workspaceId: int, createdBy: int, createdAt: int)
  {
    function Insert(): InsertProject { InsertProject(name, description, workspaceId, createdBy) }
  }
  datatype InsertProject = InsertProject(name: string, description: Option<string>, workspaceId: int, createdBy: int)

  /** `parentId` is nullable (a root folder); `projectId` is required. */
  datatype Folder = Folder(id: int, name: string, projectId: int, parentId: Option<int>, createdBy: int, createdAt: int)
  {
    function Insert(): InsertFolder { InsertFolder(name, projectId, parentId, createdBy) }
  }
  datatype InsertFolder = InsertFolder(name: string, projectId: int, parentId: Option<int>, createdBy: int)

  /** `priority`, `status` and `testType` are free text: the schema enumerates no values. */
  datatype TestCase = TestCase(
    id: int, testId: string, name: string, description: Option<string>,
    priority: string, status: string, testType: string, preconditions: Option<string>,
    folderId: int, projectId: int, steps: seq<Step>, tags: Option<seq<string>>,
    createdBy: int, createdAt: int, updatedAt: int)
  {
    function Insert(): InsertTestCase
    {
      InsertTestCase(testId, name, description, priority, status, testType, preconditions,
                     folderId, projectId, steps, tags, createdBy)
    }
  }
  datatype InsertTestCase = InsertTestCase(
    testId: string, name: string, description: Option<string>,
    priority: string, status: string, testType: string, preconditions: Option<string>,
    folderId: int, projectId: int, steps: seq<Step>, tags: Option<seq<string>>, createdBy: int)

  datatype TestExecution = TestExecution(id: int, name: string, description: Option<string>, projectId: int, createdBy: int, createdAt: int, status: string)
  {
    function Insert(): InsertTestExecution { InsertTestExecution(name, description, projectId, createdBy, status) }
  }
  datatype InsertTestExecution = InsertTestExecution(name: string, description: Option<string>, projectId: int, createdBy: int, status: string)

  datatype TestExecutionItem = TestExecutionItem(
    id: int, executionId: int, testCaseId: int, assignedTo: Option<int>, status: string,
    result: Option<string>, comments: Option<string>, executedBy: Option<int>, executedAt: Option<int>)
  {
    function Insert(): InsertTestExecutionItem { InsertTestExecutionItem(executionId, testCaseId, assignedTo, status) }
  }
  /** The item insert schema has no `result`, `comments` or `executed_*`: only an update sets them. */
  datatype InsertTestExecutionItem = InsertTestExecutionItem(executionId: int, testCaseId: int, assignedTo: Option<int>, status: string)

  /**
   * Partial<TestExecutionItem>: every column optional. For nullable columns the
   * inner Option distinguishes "set to null" from "set to a value".
   */
  datatype ItemPatch = ItemPatch(
    id: Option<int>, executionId: Option<int>, testCaseId: Option<int>, assignedTo: Option<Option<int>>,
    status: Option<string>, result: Option<Option<string>>, comments: Option<Option<string>>,
    executedBy: Option<Option<int>>, executedAt: Option<Option<int>>)

  /** Outcome of an insert schema's `parse`: the validated insert, or every missing required column. */
  datatype Parsed<T> = Parsed(value: T) | Rejected(missing: seq<string>)

  function Missing<T>(column: string, field: Option<T>): (r: seq<string>)
    ensures forall c :: c in r <==> c == column && field.None?
  {
    if field.None? then [column] else []
  }

  datatype WorkspaceBody = WorkspaceBody(name: Option<string>, description: Option<string>, createdBy: Option<int>)

  function ParseWorkspace(b: WorkspaceBody): (r: Parsed<InsertWorkspace>)
    ensures r.Parsed? <==> b.name.Some? && b.createdBy.Some?
    ensures r.Parsed? ==> r.value.name == b.name.value && r.value.description == b.description
                          && r.value.createdBy == b.createdBy.value
    ensures r.Rejected? ==> ("name" in r.missing <==> b.name.None?)
                            && ("created_by" in r.missing <==> b.createdBy.None?)
  {
    if b.name.Some? && b.createdBy.Some? then
      Parsed(InsertWorkspace(b.name.value, b.description, b.createdBy.value))
    else
      Rejected(Missing("name", b.name) + Missing("created_by", b.createdBy))
  }

  datatype ProjectBody = ProjectBody(name: Option<string>, description: Option<string>, workspaceId: Option<int>, createdBy: Option<int>)

  function ParseProject(b: ProjectBody): (r: Parsed<InsertProject>)
    ensures r.Parsed? <==> b.name.Some? && b.workspaceId.Some? && b.createdBy.Some?
    ensures r.Parsed? ==> r.value.name == b.name.value && r.value.description == b.description
                          && r.value.workspaceId == b.workspaceId.value && r.value.createdBy == b.createdBy.value
    ensures r.Rejected? ==> ("name" in r.missing <==> b.name.None?)
                            && ("workspace_id" in r.missing <==> b.workspaceId.None?)
                            && ("created_by" in r.missing <==> b.createdBy.None?)
  {
    if b.name.Some? && b.workspaceId.Some? && b.createdBy.Some? then
      Parsed(InsertProject(b.name.value, b.description, b.workspaceId.value, b.createdBy.value))
    else
      Rejected(Missing("name", b.name) + Missing("workspace_id", b.workspaceId) + Missing("created_by", b.createdBy))
  }

  datatype FolderBody = FolderBody(name: Option<string>, projectId: Option<int>, parentId: Option<int>, createdBy: Option<int>)

  function ParseFolder(b: FolderBody): (r: Parsed<InsertFolder>)
    ensures r.Parsed? <==> b.name.Some? && b.projectId.Some? && b.createdBy.Some?
    ensures r.Parsed? ==> r.value.name == b.name.value && r.value.projectId == b.projectId.value
                          && r.value.parentId == b.parentId && r.value.createdBy == b.createdBy.value
    ensures r.Rejected? ==> ("name" in r.missing <==> b.name.None?)
                            && ("project_id" in r.missing <==> b.projectId.None?)
                            && ("created_by" in r.missing <==> b.createdBy.None?)
  {
    if b.name.Some? && b.projectId.Some? && b.createdBy.Some? then
      Parsed(InsertFolder(b.name.value, b.projectId.value, b.parentId, b.createdBy.value))
    else
      Rejected(Missing("name", b.name) + Missing("project_id", b.projectId) + Missing("created_by", b.createdBy))
  }

  datatype TestCaseBody = TestCaseBody(
    testId: Option<string>, name: Option<string>, description: Option<string>,
    priority: Option<string>, status: Option<string>, testType: Option<string>, preconditions: Option<string>,
    folderId: Option<int>, projectId: Option<int>, steps: Option<seq<Step>>, tags: Option<seq<string>>,
    createdBy: Option<int>)

  /** The required (not-null, no default) columns of the test-case insert schema. */
  const TestCaseRequired: seq<string> :=
    ["test_id", "name", "priority", "status", "type", "folder_id", "project_id", "steps", "created_by"]

  /** Whether the body supplies the named column (columns outside the list count as supplied). */
  predicate TestCaseSupplies(b: TestCaseBody, column: string)
  {
    if column == "test_id" then b.testId.Some?
    else if column == "name" then b.name.Some?
    else if column == "priority" then b.priority.Some?
    else if column == "status" then b.status.Some?
    else if column == "type" then b.testType.Some?
    else if column == "folder_id" then b.folderId.Some?
    else if column == "project_id" then b.projectId.Some?
    else if column == "steps" then b.steps.Some?
    else if column == "created_by" then b.createdBy.Some?
    else true
  }

  predicate TestCaseComplete(b: TestCaseBody)
  {
    && b.testId.Some? && b.name.Some? && b.priority.Some? && b.status.Some? && b.testType.Some?
    && b.folderId.Some? && b.projectId.Some? && b.steps.Some? && b.createdBy.Some?
  }

  /** The columns of `columns` that `supplied` says are absent, in order. */
  function Absent(columns: seq<string>, supplied: string -> bool): (r: seq<string>)
    ensures forall c :: c in r <==> c in columns && !supplied(c)
  {
    if columns == [] then []
    else (if supplied(columns[0]) then [] else [columns[0]]) + Absent(columns[1..], supplied)
  }

  function ParseTestCase(b: TestCaseBody): (r: Parsed<InsertTestCase>)
    ensures r.Parsed? <==> TestCaseComplete(b)
    ensures r.Parsed? ==>
      && r.value.testId == b.testId.value && r.value.name == b.name.value
      && r.value.description == b.description && r.value.priority == b.priority.value
      && r.value.status == b.status.value && r.value.testType == b.testType.value
      && r.value.preconditions == b.preconditions && r.value.folderId == b.folderId.value
      && r.value.projectId == b.projectId.value && r.value.steps == b.steps.value
      && r.value.tags == b.tags && r.value.createdBy == b.createdBy.value
    ensures r.Rejected? ==> r.missing != []
    ensures r.Rejected? ==> forall c :: c in r.missing <==> c in TestCaseRequired && !TestCaseSupplies(b, c)
  {
    if TestCaseComplete(b) then
      Parsed(InsertTestCase(b.testId.value, b.name.value, b.description, b.priority.value, b.status.value,
                            b.testType.value, b.preconditions, b.folderId.value, b.projectId.value,
                            b.steps.value, b.tags, b.createdBy.value))
    else
      var missing := Absent(TestCaseRequired, c => TestCaseSupplies(b, c));
      assert !TestCaseSupplies(b, "test_id") || !TestCaseSupplies(b, "name") || !TestCaseSupplies(b, "priority")
        || !TestCaseSupplies(b, "status") || !TestCaseSupplies(b, "type") || !TestCaseSupplies(b, "folder_id")
        || !TestCaseSupplies(b, "project_id") || !TestCaseSupplies(b, "steps") || !TestCaseSupplies(b, "created_by");
      Rejected(missing)
  }

  /**
   * The execution body also carries `test_case_ids`, which the insert schema
   * drops but the creation handler reads (None: absent or not an array).
   */
  datatype ExecutionBody = ExecutionBody(
    name: Option<string>, description: Option<string>, projectId: Option<int>, createdBy: Option<int>,
    status: Option<string>, testCaseIds: Option<seq<int>>)

  function ParseExecution(b: ExecutionBody): (r: Parsed<InsertTestExecution>)
    ensures r.Parsed? <==> b.name.Some? && b.projectId.Some? && b.createdBy.Some? && b.status.Some?
    ensures r.Parsed? ==> r.value.name == b.name.value && r.value.description == b.description
                          && r.value.projectId == b.projectId.value && r.value.createdBy == b.createdBy.value
                          && r.value.status == b.status.value
    ensures r.Rejected? ==> ("name" in r.missing <==> b.name.None?) && ("status" in r.missing <==> b.status.None?)
  {
    if b.name.Some? && b.projectId.Some? && b.createdBy.Some? && b.status.Some? then
      Parsed(InsertTestExecution(b.name.value, b.description, b.projectId.value, b.createdBy.value, b.status.value))
    else
      Rejected(Missing("name", b.name) + Missing("project_id", b.projectId) + Missing("created_by", b.createdBy)
               + Missing("status", b.status))
  }
}
