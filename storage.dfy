/**
 * The in-memory entity store: one map per entity kind and one auto-increment
 * counter per kind. Counters start at 1; each create takes the current
 * counter as the new id and increments it, and nothing is ever deleted, so the
 * keys of every map are exactly 1 .. counter - 1 and iteration order (insertion
 * order) is ascending id order. Timestamps are a clock value passed in.
 */
module Storage {
  import opened Common
  import opened Schema

  /** `{ ...item, ...data }`: the columns the patch supplies overwrite, all others are kept. */
  function Merge(item: TestExecutionItem, data: ItemPatch): (r: TestExecutionItem)
    ensures data == ItemPatch(None, None, None, None, None, None, None, None, None) ==> r == item
  {
    TestExecutionItem(
      Override(item.id, data.id), Override(item.executionId, data.executionId),
      Override(item.testCaseId, data.testCaseId), Override(item.assignedTo, data.assignedTo),
      Override(item.status, data.status), Override(item.result, data.result),
      Override(item.comments, data.comments), Override(item.executedBy, data.executedBy),
      Override(item.executedAt, data.executedAt))
  }

  function Override<T>(current: T, supplied: Option<T>): T
  {
    if supplied.Some? then supplied.value else current
  }

  /** Spreading `q` over the result of spreading `p` is spreading `p` then `q` in one object. */
  function Combine(p: ItemPatch, q: ItemPatch): ItemPatch
  {
    ItemPatch(
      if q.id.Some? then q.id else p.id,
      if q.executionId.Some? then q.executionId else p.executionId,
      if q.testCaseId.Some? then q.testCaseId else p.testCaseId,
      if q.assignedTo.Some? then q.assignedTo else p.assignedTo,
      if q.status.Some? then q.status else p.status,
      if q.result.Some? then q.result else p.result,
      if q.comments.Some? then q.comments else p.comments,
      if q.executedBy.Some? then q.executedBy else p.executedBy,
      if q.executedAt.Some? then q.executedAt else p.executedAt)
  }

  lemma MergeCombine(item: TestExecutionItem, p: ItemPatch, q: ItemPatch)
    ensures Merge(Merge(item, p), q) == Merge(item, Combine(p, q))
  {
  }

  /** Applying the same partial update twice is the same as applying it once. */
  lemma MergeIdempotent(item: TestExecutionItem, p: ItemPatch)
    ensures Merge(Merge(item, p), p) == Merge(item, p)
  {
    MergeCombine(item, p, p);
    assert Combine(p, p) == p;
  }

  /** The filter getWorkspacesByUserId keeps memberships by: the membership is the user's. */
  function MembershipOf(userId: int): WorkspaceMember -> bool
  {
    (m: WorkspaceMember) => m.userId == userId
  }

  /** The memberships whose workspace is stored. */
  function HasWorkspace(ws: map<int, Workspace>): WorkspaceMember -> bool
  {
    (m: WorkspaceMember) => m.workspaceId in ws
  }

  /**
   * getWorkspacesByUserId's second step: the workspace of each membership, in
   * membership order, dropping memberships whose workspace is missing (the
   * source maps first and drops the undefined lookups after; keeping the
   * memberships with a stored workspace first and mapping them is the same
   * list). A workspace reached through two memberships is listed twice.
   */
  function WorkspacesOf(ms: seq<WorkspaceMember>, ws: map<int, Workspace>): (r: seq<Workspace>)
    ensures |r| == |Filter(ms, HasWorkspace(ws))|
    ensures forall i :: 0 <= i < |r| ==>
              Filter(ms, HasWorkspace(ws))[i].workspaceId in ws && r[i] == ws[Filter(ms, HasWorkspace(ws))[i].workspaceId]
    ensures forall w :: w in r ==> exists m :: m in ms && m.workspaceId in ws && ws[m.workspaceId] == w
    ensures forall m :: m in ms && m.workspaceId in ws ==> ws[m.workspaceId] in r
  {
    var kept := Filter(ms, HasWorkspace(ws));
    var r := seq(|kept|, i requires 0 <= i < |kept| => assert HasWorkspace(ws)(kept[i]); ws[kept[i].workspaceId]);
    assert forall w :: w in r ==> exists m :: m in ms && m.workspaceId in ws && ws[m.workspaceId] == w by {
      forall w | w in r ensures exists m :: m in ms && m.workspaceId in ws && ws[m.workspaceId] == w {
        var i :| 0 <= i < |r| && r[i] == w;
        assert kept[i] in ms && HasWorkspace(ws)(kept[i]);
      }
    }
    assert forall m :: m in ms && m.workspaceId in ws ==> ws[m.workspaceId] in r by {
      forall m | m in ms && m.workspaceId in ws ensures ws[m.workspaceId] in r {
        var k :| 0 <= k < |ms| && ms[k] == m;
        assert HasWorkspace(ws)(ms[k]);
        var i :| 0 <= i < |kept| && kept[i] == m;
        assert r[i] == ws[m.workspaceId];
      }
    }
    r
  }

  /** The number of stored test cases of a project. */
  ghost function ProjectCaseCount(m: map<int, TestCase>, projectId: int): nat
  {
    |set k | k in m && m[k].projectId == projectId|
  }

  /** The filter getTestExecutionItems applies: the item belongs to the execution. */
  function ItemOf(executionId: int): TestExecutionItem -> bool
  {
    (x: TestExecutionItem) => x.executionId == executionId
  }

  class MemStorage {
    var users: map<int, User>
    var workspaces: map<int, Workspace>
    var workspaceMembers: map<int, WorkspaceMember>
    var projects: map<int, Project>
    var folders: map<int, Folder>
    var testCases: map<int, TestCase>
    var testExecutions: map<int, TestExecution>
    var testExecutionItems: map<int, TestExecutionItem>

    var currentUserId: int
    var currentWorkspaceId: int
    var currentWorkspaceMemberId: int
    var currentProjectId: int
    var currentFolderId: int
    var currentTestCaseId: int
    var currentTestExecutionId: int
    var currentTestExecutionItemId: int

    /** Each map is dense up to its counter and each record carries its own key as id. */
    ghost predicate UsersValid()
      reads this`users, this`currentUserId
    {
      Dense(users, currentUserId) && forall k :: k in users ==> users[k].id == k
    }

    ghost predicate WorkspacesValid()
      reads this`workspaces, this`currentWorkspaceId
    {
      Dense(workspaces, currentWorkspaceId) && forall k :: k in workspaces ==> workspaces[k].id == k
    }

    ghost predicate MembersValid()
      reads this`workspaceMembers, this`currentWorkspaceMemberId
    {
      Dense(workspaceMembers, currentWorkspaceMemberId) && forall k :: k in workspaceMembers ==> workspaceMembers[k].id == k
    }

    ghost predicate ProjectsValid()
      reads this`projects, this`currentProjectId
    {
      Dense(projects, currentProjectId) && forall k :: k in projects ==> projects[k].id == k
    }

    ghost predicate FoldersValid()
      reads this`folders, this`currentFolderId
    {
      Dense(folders, currentFolderId) && forall k :: k in folders ==> folders[k].id == k
    }

    ghost predicate TestCasesValid()
      reads this`testCases, this`currentTestCaseId
    {
      Dense(testCases, currentTestCaseId) && forall k :: k in testCases ==> testCases[k].id == k
    }

    ghost predicate ExecutionsValid()
      reads this`testExecutions, this`currentTestExecutionId
    {
      Dense(testExecutions, currentTestExecutionId) && forall k :: k in testExecutions ==> testExecutions[k].id == k
    }

    /** Items only need density: an update can overwrite an item's id (see the routes module). */
    ghost predicate ItemsValid()
      reads this`testExecutionItems, this`currentTestExecutionItemId
    {
      Dense(testExecutionItems, currentTestExecutionItemId)
    }

    ghost predicate Valid()
      reads this
    {
      && UsersValid() && WorkspacesValid() && MembersValid() && ProjectsValid()
      && FoldersValid() && TestCasesValid() && ExecutionsValid() && ItemsValid()
    }

    constructor ()
      ensures Valid()
      ensures users == map[] && workspaces == map[] && workspaceMembers == map[] && projects == map[]
      ensures folders == map[] && testCases == map[] && testExecutions == map[] && testExecutionItems == map[]
      ensures currentUserId == 1 && currentWorkspaceId == 1 && currentWorkspaceMemberId == 1
      ensures currentProjectId == 1 && currentFolderId == 1 && currentTestCaseId == 1
      ensures currentTestExecutionId == 1 && currentTestExecutionItemId == 1
    {
      users, workspaces, workspaceMembers, projects := map[], map[], map[], map[];
      folders, testCases, testExecutions, testExecutionItems := map[], map[], map[], map[];
      currentUserId, currentWorkspaceId, currentWorkspaceMemberId, currentProjectId := 1, 1, 1, 1;
      currentFolderId, currentTestCaseId, currentTestExecutionId, currentTestExecutionItemId := 1, 1, 1, 1;
    }

    // ---------------------------------------------------------------- users

    function GetUser(id: int): (r: Option<User>)
      reads this`users
      ensures r.Some? <==> id in users
      ensures r.Some? ==> r.value == users[id]
    {
      if id in users then Some(users[id]) else None
    }

    /** The first user (in id order) with the given username, if any. */
    function GetUserByUsername(username: string): (r: Option<User>)
      reads this`users, this`currentUserId
      requires UsersValid()
      ensures r.Some? ==> r.value.id in users && users[r.value.id] == r.value && r.value.username == username
      ensures r.Some? ==> forall k :: k in users && k < r.value.id ==> users[k].username != username
      ensures r.None? ==> forall k :: k in users ==> users[k].username != username
    {
      var all := Values(users, currentUserId - 1);
      var found := FirstIndex(all, (u: User) => u.username == username);
      if found.None? then
        assert forall k :: k in users ==> users[k] == all[k - 1];
        None
      else
        assert forall k :: k in users && k < found.value + 1 ==> users[k] == all[k - 1];
        Some(all[found.value])
    }

    method CreateUser(data: InsertUser, now: int) returns (user: User)
      requires UsersValid()
      modifies this`users, this`currentUserId
      ensures UsersValid()
      ensures user.id == old(currentUserId) && user.id !in old(users)
      ensures user.Insert() == data && user.createdAt == now
      ensures users == old(users)[user.id := user] && currentUserId == old(currentUserId) + 1
    {
      var id := currentUserId;
      currentUserId := currentUserId + 1;
      user := User(id, data.username, data.password, data.email, data.name, now);
      users := users[id := user];
    }

    // ----------------------------------------------------------- workspaces

    function GetWorkspace(id: int): (r: Option<Workspace>)
      reads this`workspaces
      ensures r.Some? <==> id in workspaces
      ensures r.Some? ==> r.value == workspaces[id]
    {
      if id in workspaces then Some(workspaces[id]) else None
    }

    /**
     * The workspaces reached through the user's memberships, in membership
     * order; memberships whose workspace is missing are dropped.
     */
    function GetWorkspacesByUserId(userId: int): (r: seq<Workspace>)
      reads this`workspaces, this`currentWorkspaceId, this`workspaceMembers, this`currentWorkspaceMemberId
      requires WorkspacesValid() && MembersValid()
      ensures forall w :: w in r ==> w.id in workspaces && workspaces[w.id] == w
      ensures forall w :: w in r ==> exists k :: k in workspaceMembers && workspaceMembers[k].userId == userId
                                                 && workspaceMembers[k].workspaceId == w.id
      ensures forall k :: k in workspaceMembers && workspaceMembers[k].userId == userId
                          && workspaceMembers[k].workspaceId in workspaces
                          ==> workspaces[workspaceMembers[k].workspaceId] in r
      ensures r == WorkspacesOf(Select(workspaceMembers, currentWorkspaceMemberId, MembershipOf(userId)), workspaces)
    {
      var p := MembershipOf(userId);
      var mine := Select(workspaceMembers, currentWorkspaceMemberId, p);
      SelectKeyed(workspaceMembers, currentWorkspaceMemberId, p, (m: WorkspaceMember) => m.id);
      assert forall m :: m in mine ==> m.id in workspaceMembers && workspaceMembers[m.id] == m && m.userId == userId;
      WorkspacesOf(mine, workspaces)
    }

    method CreateWorkspace(data: InsertWorkspace, now: int) returns (workspace: Workspace)
      requires WorkspacesValid()
      modifies this`workspaces, this`currentWorkspaceId
      ensures WorkspacesValid()
      ensures workspace.id == old(currentWorkspaceId) && workspace.id !in old(workspaces)
      ensures workspace.Insert() == data && workspace.createdAt == now
      ensures workspaces == old(workspaces)[workspace.id := workspace]
      ensures currentWorkspaceId == old(currentWorkspaceId) + 1
    {
      var id := currentWorkspaceId;
      currentWorkspaceId := currentWorkspaceId + 1;
      workspace := Workspace(id, data.name, data.description, data.createdBy, now);
      workspaces := workspaces[id := workspace];
    }

    // ---------------------------------------------------- workspace members

    method AddWorkspaceMember(data: InsertWorkspaceMember) returns (member: WorkspaceMember)
      requires MembersValid()
      modifies this`workspaceMembers, this`currentWorkspaceMemberId
      ensures MembersValid()
      ensures member.id == old(currentWorkspaceMemberId) && member.id !in old(workspaceMembers)
      ensures member.Insert() == data
      ensures workspaceMembers == old(workspaceMembers)[member.id := member]
      ensures currentWorkspaceMemberId == old(currentWorkspaceMemberId) + 1
    {
      var id := currentWorkspaceMemberId;
      currentWorkspaceMemberId := currentWorkspaceMemberId + 1;
      member := WorkspaceMember(id, data.workspaceId, data.userId, data.role);
      workspaceMembers := workspaceMembers[id := member];
    }

    function GetWorkspaceMembers(workspaceId: int): (r: seq<WorkspaceMember>)
      reads this`workspaceMembers, this`currentWorkspaceMemberId
      requires MembersValid()
      ensures forall m :: m in r ==> m.id in workspaceMembers && workspaceMembers[m.id] == m && m.workspaceId == workspaceId
      ensures forall k :: k in workspaceMembers && workspaceMembers[k].workspaceId == workspaceId ==> workspaceMembers[k] in r
      ensures forall i, j :: 0 <= i < j < |r| ==> r[i].id < r[j].id
    {
      var p := (m: WorkspaceMember) => m.workspaceId == workspaceId;
      SelectKeyed(workspaceMembers, currentWorkspaceMemberId, p, (m: WorkspaceMember) => m.id);
      Select(workspaceMembers, currentWorkspaceMemberId, p)
    }

    /** Some stored membership joins the user to the workspace; the role plays no part. */
    function IsWorkspaceMember(workspaceId: int, userId: int): (b: bool)
      reads this`workspaceMembers, this`currentWorkspaceMemberId
      requires MembersValid()
      ensures b <==> exists k :: k in workspaceMembers && workspaceMembers[k].workspaceId == workspaceId
                                 && workspaceMembers[k].userId == userId
    {
      var all := Values(workspaceMembers, currentWorkspaceMemberId - 1);
      ValuesOfDense(workspaceMembers, currentWorkspaceMemberId);
      exists i | 0 <= i < |all| :: all[i].workspaceId == workspaceId && all[i].userId == userId
    }

    // ------------------------------------------------------------- projects

    function GetProject(id: int): (r: Option<Project>)
      reads this`projects
      ensures r.Some? <==> id in projects
      ensures r.Some? ==> r.value == projects[id]
    {
      if id in projects then Some(projects[id]) else None
    }

    function GetProjectsByWorkspaceId(workspaceId: int): (r: seq<Project>)
      reads this`projects, this`currentProjectId
      requires ProjectsValid()
      ensures forall p :: p in r ==> p.id in projects && projects[p.id] == p && p.workspaceId == workspaceId
      ensures forall k :: k in projects && projects[k].workspaceId == workspaceId ==> projects[k] in r
      ensures forall i, j :: 0 <= i < j < |r| ==> r[i].id < r[j].id
    {
      var p := (x: Project) => x.workspaceId == workspaceId;
      SelectKeyed(projects, currentProjectId, p, (x: Project) => x.id);
      Select(projects, currentProjectId, p)
    }

    method CreateProject(data: InsertProject, now: int) returns (project: Project)
      requires ProjectsValid()
      modifies this`projects, this`currentProjectId
      ensures ProjectsValid()
      ensures project.id == old(currentProjectId) && project.id !in old(projects)
      ensures project.Insert() == data && project.createdAt == now
      ensures projects == old(projects)[project.id := project]
      ensures currentProjectId == old(currentProjectId) + 1
    {
      var id := currentProjectId;
      currentProjectId := currentProjectId + 1;
      project := Project(id, data.name, data.description, data.workspaceId, data.createdBy, now);
      projects := projects[id := project];
    }

    // -------------------------------------------------------------- folders

    function GetFolder(id: int): (r: Option<Folder>)
      reads this`folders
      ensures r.Some? <==> id in folders
      ensures r.Some? ==> r.value == folders[id]
    {
      if id in folders then Some(folders[id]) else None
    }

    function GetFoldersByProjectId(projectId: int): (r: seq<Folder>)
      reads this`folders, this`currentFolderId
      requires FoldersValid()
      ensures forall f :: f in r ==> f.id in folders && folders[f.id] == f && f.projectId == projectId
      ensures forall k :: k in folders && folders[k].projectId == projectId ==> folders[k] in r
      ensures forall i, j :: 0 <= i < j < |r| ==> r[i].id < r[j].id
    {
      var p := (x: Folder) => x.projectId == projectId;
      SelectKeyed(folders, currentFolderId, p, (x: Folder) => x.id);
      Select(folders, currentFolderId, p)
    }

    method CreateFolder(data: InsertFolder, now: int) returns (folder: Folder)
      requires FoldersValid()
      modifies this`folders, this`currentFolderId
      ensures FoldersValid()
      ensures folder.id == old(currentFolderId) && folder.id !in old(folders)
      ensures folder.Insert() == data && folder.createdAt == now
      ensures folders == old(folders)[folder.id := folder]
      ensures currentFolderId == old(currentFolderId) + 1
    {
      var id := currentFolderId;
      currentFolderId := currentFolderId + 1;
      folder := Folder(id, data.name, data.projectId, data.parentId, data.createdBy, now);
      folders := folders[id := folder];
    }

    // ----------------------------------------------------------- test cases

    function GetTestCase(id: int): (r: Option<TestCase>)
      reads this`testCases
      ensures r.Some? <==> id in testCases
      ensures r.Some? ==> r.value == testCases[id]
    {
      if id in testCases then Some(testCases[id]) else None
    }

    function GetTestCasesByProjectId(projectId: int): (r: seq<TestCase>)
      reads this`testCases, this`currentTestCaseId
      requires TestCasesValid()
      ensures forall t :: t in r ==> t.id in testCases && testCases[t.id] == t && t.projectId == projectId
      ensures forall k :: k in testCases && testCases[k].projectId == projectId ==> testCases[k] in r
      ensures forall i, j :: 0 <= i < j < |r| ==> r[i].id < r[j].id
    {
      var p := (x: TestCase) => x.projectId == projectId;
      SelectKeyed(testCases, currentTestCaseId, p, (x: TestCase) => x.id);
      Select(testCases, currentTestCaseId, p)
    }

    function GetTestCasesByFolderId(folderId: int): (r: seq<TestCase>)
      reads this`testCases, this`currentTestCaseId
      requires TestCasesValid()
      ensures forall t :: t in r ==> t.id in testCases && testCases[t.id] == t && t.folderId == folderId
      ensures forall k :: k in testCases && testCases[k].folderId == folderId ==> testCases[k] in r
      ensures forall i, j :: 0 <= i < j < |r| ==> r[i].id < r[j].id
    {
      var p := (x: TestCase) => x.folderId == folderId;
      SelectKeyed(testCases, currentTestCaseId, p, (x: TestCase) => x.id);
      Select(testCases, currentTestCaseId, p)
    }

    /** The number of stored test cases of the project: the length of getTestCasesByProjectId. */
    function GetTestCaseCount(projectId: int): (r: nat)
      reads this`testCases, this`currentTestCaseId
      requires TestCasesValid()
      ensures r == |GetTestCasesByProjectId(projectId)|
      ensures r == ProjectCaseCount(testCases, projectId)
    {
      var p := (x: TestCase) => x.projectId == projectId;
      SelectCount(testCases, currentTestCaseId, p, set k | k in testCases && testCases[k].projectId == projectId);
      |Select(testCases, currentTestCaseId, p)|
    }

    /** `created_at` and `updated_at` are stamped with the same instant. */
    method CreateTestCase(data: InsertTestCase, now: int) returns (testCase: TestCase)
      requires TestCasesValid()
      modifies this`testCases, this`currentTestCaseId
      ensures TestCasesValid()
      ensures testCase.id == old(currentTestCaseId) && testCase.id !in old(testCases)
      ensures testCase.Insert() == data && testCase.createdAt == now && testCase.updatedAt == now
      ensures testCases == old(testCases)[testCase.id := testCase]
      ensures currentTestCaseId == old(currentTestCaseId) + 1
    {
      var id := currentTestCaseId;
      currentTestCaseId := currentTestCaseId + 1;
      testCase := TestCase(id, data.testId, data.name, data.description, data.priority, data.status,
                           data.testType, data.preconditions, data.folderId, data.projectId, data.steps,
                           data.tags, data.createdBy, now, now);
      testCases := testCases[id := testCase];
    }

    // ------------------------------------------------------ test executions

    function GetTestExecution(id: int): (r: Option<TestExecution>)
      reads this`testExecutions
      ensures r.Some? <==> id in testExecutions
      ensures r.Some? ==> r.value == testExecutions[id]
    {
      if id in testExecutions then Some(testExecutions[id]) else None
    }

    function GetTestExecutionsByProjectId(projectId: int): (r: seq<TestExecution>)
      reads this`testExecutions, this`currentTestExecutionId
      requires ExecutionsValid()
      ensures forall e :: e in r ==> e.id in testExecutions && testExecutions[e.id] == e && e.projectId == projectId
      ensures forall k :: k in testExecutions && testExecutions[k].projectId == projectId ==> testExecutions[k] in r
      ensures forall i, j :: 0 <= i < j < |r| ==> r[i].id < r[j].id
    {
      var p := (x: TestExecution) => x.projectId == projectId;
      SelectKeyed(testExecutions, currentTestExecutionId, p, (x: TestExecution) => x.id);
      Select(testExecutions, currentTestExecutionId, p)
    }

    method CreateTestExecution(data: InsertTestExecution, now: int) returns (execution: TestExecution)
      requires ExecutionsValid()
      modifies this`testExecutions, this`currentTestExecutionId
      ensures ExecutionsValid()
      ensures execution.id == old(currentTestExecutionId) && execution.id !in old(testExecutions)
      ensures execution.Insert() == data && execution.createdAt == now
      ensures testExecutions == old(testExecutions)[execution.id := execution]
      ensures currentTestExecutionId == old(currentTestExecutionId) + 1
    {
      var id := currentTestExecutionId;
      currentTestExecutionId := currentTestExecutionId + 1;
      execution := TestExecution(id, data.name, data.description, data.projectId, data.createdBy, now, data.status);
      testExecutions := testExecutions[id := execution];
    }

    // ------------------------------------------------- test execution items

    function GetTestExecutionItem(id: int): (r: Option<TestExecutionItem>)
      reads this`testExecutionItems
      ensures r.Some? <==> id in testExecutionItems
      ensures r.Some? ==> r.value == testExecutionItems[id]
    {
      if id in testExecutionItems then Some(testExecutionItems[id]) else None
    }

    /** The items of an execution, in insertion order. */
    function GetTestExecutionItems(executionId: int): (r: seq<TestExecutionItem>)
      reads this`testExecutionItems, this`currentTestExecutionItemId
      requires ItemsValid()
      ensures forall i :: 0 <= i < |r| ==> r[i] in testExecutionItems.Values && r[i].executionId == executionId
      ensures forall k :: k in testExecutionItems && testExecutionItems[k].executionId == executionId
                          ==> testExecutionItems[k] in r
      ensures IsSubsequence(r, Values(testExecutionItems, currentTestExecutionItemId - 1))
    {
      Select(testExecutionItems, currentTestExecutionItemId, ItemOf(executionId))
    }

    /** `result`, `comments`, `executed_by` and `executed_at` start out null, whatever the caller sends. */
    method AddTestExecutionItem(data: InsertTestExecutionItem) returns (item: TestExecutionItem)
      requires ItemsValid()
      modifies this`testExecutionItems, this`currentTestExecutionItemId
      ensures ItemsValid()
      ensures item.id == old(currentTestExecutionItemId) && item.id !in old(testExecutionItems)
      ensures item == TestExecutionItem(item.id, data.executionId, data.testCaseId, data.assignedTo, data.status,
                                        None, None, None, None)
      ensures testExecutionItems == old(testExecutionItems)[item.id := item]
      ensures currentTestExecutionItemId == old(currentTestExecutionItemId) + 1
    {
      var id := currentTestExecutionItemId;
      currentTestExecutionItemId := currentTestExecutionItemId + 1;
      item := TestExecutionItem(id, data.executionId, data.testCaseId, data.assignedTo, data.status,
                                None, None, None, None);
      testExecutionItems := testExecutionItems[id := item];
    }

    /**
     * Fails (None: the source throws) on an absent id; otherwise stores the old
     * record with exactly the supplied columns overwritten. No other item changes.
     */
    method UpdateTestExecutionItem(id: int, data: ItemPatch) returns (r: Option<TestExecutionItem>)
      requires ItemsValid()
      modifies this`testExecutionItems
      ensures ItemsValid()
      ensures r.None? <==> id !in old(testExecutionItems)
      ensures r.None? ==> testExecutionItems == old(testExecutionItems)
      ensures r.Some? ==> r.value == Merge(old(testExecutionItems)[id], data)
                          && testExecutionItems == old(testExecutionItems)[id := r.value]
    {
      if id !in testExecutionItems {
        return None;
      }
      var updated := Merge(testExecutionItems[id], data);
      testExecutionItems := testExecutionItems[id := updated];
      r := Some(updated);
    }
  }
}
