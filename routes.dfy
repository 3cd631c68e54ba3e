/**
 * The JSON API handlers. Every handler first rejects an unauthenticated
 * request (401), then looks up the record named in the path (404), reaches
 * the workspace that owns it, and refuses a requester who is not a member of
 * that workspace (403). A handler that dereferences a record it did not check
 * (the project of a folder, of a test case or of an execution; the execution
 * of an item) fails with a 500 when that record is missing.
 *
 * Read handlers are functions of the store; write handlers are methods that
 * change only the maps they create records in.
 */
module Routes {
  import opened Common
  import opened Text
  import opened Schema
  import opened Storage

  /** What a 404 response says was not found. */
  datatype Kind = WorkspaceKind | ProjectKind | FolderKind | TestCaseKind | ExecutionKind | ItemKind

  /**
   * A handler's response: 401, 404, 403, 400 with the missing columns, 500,
   * 200 with a body, 201 with the created record.
   */
  datatype Outcome<T> =
    | Unauthorized
    | NotFound(kind: Kind)
    | Forbidden
    | BadRequest(missing: seq<string>)
    | InternalError
    | Ok(value: T)
    | Created(value: T)

  /** How a handler reaches the workspace that guards a record. */
  datatype Guard = Guarded(workspaceId: int) | Absent(kind: Kind) | Dangling

  /** Reference definition of membership: some stored membership row joins the user to the workspace. */
  ghost predicate Member(store: MemStorage, workspaceId: int, userId: int)
    reads store`workspaceMembers
  {
    exists k :: k in store.workspaceMembers && store.workspaceMembers[k].workspaceId == workspaceId
                && store.workspaceMembers[k].userId == userId
  }

  ghost predicate ItemsLinked(items: map<int, TestExecutionItem>, executions: map<int, TestExecution>)
  {
    forall k :: k in items ==> items[k].executionId in executions
  }

  ghost predicate MembersLinked(store: MemStorage)
    reads store`workspaceMembers, store`workspaces
  {
    forall k :: k in store.workspaceMembers ==> store.workspaceMembers[k].workspaceId in store.workspaces
  }

  ghost predicate ProjectsLinked(store: MemStorage)
    reads store`projects, store`workspaces
  {
    forall k :: k in store.projects ==> store.projects[k].workspaceId in store.workspaces
  }

  ghost predicate FoldersLinked(store: MemStorage)
    reads store`folders, store`projects
  {
    forall k :: k in store.folders ==> store.folders[k].projectId in store.projects
  }

  ghost predicate TestCasesLinked(store: MemStorage)
    reads store`testCases, store`projects
  {
    forall k :: k in store.testCases ==> store.testCases[k].projectId in store.projects
  }

  ghost predicate ExecutionsLinked(store: MemStorage)
    reads store`testExecutions, store`projects
  {
    forall k :: k in store.testExecutions ==> store.testExecutions[k].projectId in store.projects
  }

  /**
   * Referential integrity: every membership and project names a stored
   * workspace, every folder, test case and execution a stored project, every
   * item a stored execution.
   */
  ghost predicate Linked(store: MemStorage)
    reads store`workspaces, store`workspaceMembers, store`projects, store`folders
    reads store`testCases, store`testExecutions, store`testExecutionItems
  {
    && MembersLinked(store) && ProjectsLinked(store) && FoldersLinked(store) && TestCasesLinked(store)
    && ExecutionsLinked(store) && ItemsLinked(store.testExecutionItems, store.testExecutions)
  }

  /** The membership check shared by all guarded handlers, in the handlers' order: 401, 404, 500, 403. */
  function Authorize(store: MemStorage, requester: Option<int>, g: Guard): (r: Outcome<int>)
    reads store`workspaceMembers, store`currentWorkspaceMemberId
    requires store.MembersValid()
    ensures r.Unauthorized? <==> requester.None?
    ensures r.NotFound? <==> requester.Some? && g.Absent?
    ensures r.NotFound? ==> r.kind == g.kind
    ensures r.InternalError? <==> requester.Some? && g.Dangling?
    ensures r.Forbidden? <==> requester.Some? && g.Guarded? && !Member(store, g.workspaceId, requester.value)
    ensures r.Ok? <==> requester.Some? && g.Guarded? && Member(store, g.workspaceId, requester.value)
    ensures r.Ok? ==> r.value == requester.value
    ensures !r.BadRequest? && !r.Created?
  {
    if requester.None? then Unauthorized
    else
      match g
      case Absent(kind) => NotFound(kind)
      case Dangling => InternalError
      case Guarded(w) => if store.IsWorkspaceMember(w, requester.value) then Ok(requester.value) else Forbidden
  }

  /** Passes a refusal on unchanged as the response of a handler with another body type. */
  function Refuse<T>(a: Outcome<int>): (r: Outcome<T>)
    requires !a.Ok? && !a.Created?
    ensures r.Unauthorized? == a.Unauthorized? && r.Forbidden? == a.Forbidden? && r.InternalError? == a.InternalError?
    ensures r.NotFound? == a.NotFound? && (r.NotFound? ==> r.kind == a.kind)
    ensures r.BadRequest? == a.BadRequest? && (r.BadRequest? ==> r.missing == a.missing)
    ensures !r.Ok? && !r.Created?
  {
    match a
    case Unauthorized => Unauthorized
    case NotFound(kind) => NotFound(kind)
    case Forbidden => Forbidden
    case BadRequest(missing) => BadRequest(missing)
    case InternalError => InternalError
  }

  // ------------------------------------------------------------- guards

  /** A project looked up and checked: a missing one is a 404. */
  function ProjectGuard(store: MemStorage, projectId: int): Guard
    reads store`projects
  {
    if projectId in store.projects then Guarded(store.projects[projectId].workspaceId) else Absent(ProjectKind)
  }

  /** A project dereferenced without a check: a missing one is a 500. */
  function OwnerGuard(store: MemStorage, projectId: int): Guard
    reads store`projects
  {
    if projectId in store.projects then Guarded(store.projects[projectId].workspaceId) else Dangling
  }

  function FolderGuard(store: MemStorage, folderId: int): Guard
    reads store`folders, store`projects
  {
    if folderId !in store.folders then Absent(FolderKind) else OwnerGuard(store, store.folders[folderId].projectId)
  }

  function TestCaseGuard(store: MemStorage, testCaseId: int): Guard
    reads store`testCases, store`projects
  {
    if testCaseId !in store.testCases then Absent(TestCaseKind)
    else OwnerGuard(store, store.testCases[testCaseId].projectId)
  }

  function ExecutionGuard(store: MemStorage, executionId: int): Guard
    reads store`testExecutions, store`projects
  {
    if executionId !in store.testExecutions then Absent(ExecutionKind)
    else OwnerGuard(store, store.testExecutions[executionId].projectId)
  }

  /** The item is checked, its execution and that execution's project are dereferenced. */
  function ItemGuard(store: MemStorage, itemId: int): Guard
    reads store`testExecutionItems, store`testExecutions, store`projects
  {
    if itemId !in store.testExecutionItems then Absent(ItemKind)
    else if store.testExecutionItems[itemId].executionId !in store.testExecutions then Dangling
    else OwnerGuard(store, store.testExecutions[store.testExecutionItems[itemId].executionId].projectId)
  }

  /** With referential integrity no guard dangles: the only 500s come from broken links. */
  lemma LinkedGuards(store: MemStorage, folderId: int, testCaseId: int, executionId: int, itemId: int)
    requires Linked(store)
    ensures !FolderGuard(store, folderId).Dangling? && !TestCaseGuard(store, testCaseId).Dangling?
    ensures !ExecutionGuard(store, executionId).Dangling? && !ItemGuard(store, itemId).Dangling?
  {
  }

  // ------------------------------------------------------ read handlers

  /** GET /api/workspaces: the workspaces the requester is a member of. */
  function ListWorkspaces(store: MemStorage, requester: Option<int>): (r: Outcome<seq<Workspace>>)
    reads store
    requires store.Valid()
    ensures r.Unauthorized? <==> requester.None?
    ensures r.Unauthorized? || r.Ok?
    ensures r.Ok? ==> forall w :: w in r.value ==> w.id in store.workspaces && store.workspaces[w.id] == w
                                                   && Member(store, w.id, requester.value)
    ensures r.Ok? ==> forall w :: w in store.workspaces && Member(store, w, requester.value)
                                  ==> store.workspaces[w] in r.value
    ensures r.Ok? ==> r.value == WorkspacesOf(Select(store.workspaceMembers, store.currentWorkspaceMemberId,
                                                     MembershipOf(requester.value)), store.workspaces)
  {
    if requester.None? then Unauthorized else Ok(store.GetWorkspacesByUserId(requester.value))
  }

  /** GET /api/workspaces/:id. */
  function GetWorkspace(store: MemStorage, requester: Option<int>, id: int): (r: Outcome<Workspace>)
    reads store
    requires store.Valid()
    ensures r.Unauthorized? <==> requester.None?
    ensures r.NotFound? <==> requester.Some? && id !in store.workspaces
    ensures r.Forbidden? <==> requester.Some? && id in store.workspaces && !Member(store, id, requester.value)
    ensures r.Ok? <==> requester.Some? && id in store.workspaces && Member(store, id, requester.value)
    ensures r.Ok? ==> r.value == store.workspaces[id]
    ensures !r.InternalError? && !r.BadRequest? && !r.Created?
  {
    var g := if id in store.workspaces then Guarded(store.workspaces[id].id) else Absent(WorkspaceKind);
    var a := Authorize(store, requester, g);
    if a.Ok? then Ok(store.workspaces[id]) else Refuse(a)
  }

  /**
   * GET /api/workspaces/:workspaceId/projects. There is no existence check:
   * an unknown workspace is refused with 403, like a foreign one.
   */
  function ListProjects(store: MemStorage, requester: Option<int>, workspaceId: int): (r: Outcome<seq<Project>>)
    reads store
    requires store.Valid()
    ensures r.Unauthorized? <==> requester.None?
    ensures r.Forbidden? <==> requester.Some? && !Member(store, workspaceId, requester.value)
    ensures r.Ok? <==> requester.Some? && Member(store, workspaceId, requester.value)
    ensures Linked(store) && requester.Some? && workspaceId !in store.workspaces ==> r.Forbidden?
    ensures r.Ok? ==> forall p :: p in r.value ==> p.workspaceId == workspaceId && p.id in store.projects
    ensures r.Ok? ==> forall k :: k in store.projects && store.projects[k].workspaceId == workspaceId
                                  ==> store.projects[k] in r.value
    ensures !r.NotFound? && !r.InternalError? && !r.BadRequest? && !r.Created?
  {
    var a := Authorize(store, requester, Guarded(workspaceId));
    if a.Ok? then Ok(store.GetProjectsByWorkspaceId(workspaceId)) else Refuse(a)
  }

  /** GET /api/projects/:id. */
  function GetProject(store: MemStorage, requester: Option<int>, id: int): (r: Outcome<Project>)
    reads store
    requires store.Valid()
    ensures r.Unauthorized? <==> requester.None?
    ensures r.NotFound? <==> requester.Some? && id !in store.projects
    ensures r.Forbidden? <==> requester.Some? && id in store.projects
                              && !Member(store, store.projects[id].workspaceId, requester.value)
    ensures r.Ok? <==> requester.Some? && id in store.projects
                       && Member(store, store.projects[id].workspaceId, requester.value)
    ensures r.Ok? ==> r.value == store.projects[id]
    ensures !r.InternalError? && !r.BadRequest? && !r.Created?
  {
    var a := Authorize(store, requester, ProjectGuard(store, id));
    if a.Ok? then Ok(store.projects[id]) else Refuse(a)
  }

  /** GET /api/projects/:projectId/folders. */
  function ListFolders(store: MemStorage, requester: Option<int>, projectId: int): (r: Outcome<seq<Folder>>)
    reads store
    requires store.Valid()
    ensures r.Unauthorized? <==> requester.None?
    ensures r.NotFound? <==> requester.Some? && projectId !in store.projects
    ensures r.Ok? <==> requester.Some? && projectId in store.projects
                       && Member(store, store.projects[projectId].workspaceId, requester.value)
    ensures r.Ok? ==> forall f :: f in r.value ==> f.projectId == projectId && f.id in store.folders
    ensures r.Ok? ==> forall k :: k in store.folders && store.folders[k].projectId == projectId
                                  ==> store.folders[k] in r.value
    ensures !r.InternalError? && !r.BadRequest? && !r.Created?
  {
    var a := Authorize(store, requester, ProjectGuard(store, projectId));
    if a.Ok? then Ok(store.GetFoldersByProjectId(projectId)) else Refuse(a)
  }

  /** GET /api/projects/:projectId/test-cases. */
  function ListProjectTestCases(store: MemStorage, requester: Option<int>, projectId: int): (r: Outcome<seq<TestCase>>)
    reads store
    requires store.Valid()
    ensures r.Unauthorized? <==> requester.None?
    ensures r.NotFound? <==> requester.Some? && projectId !in store.projects
    ensures r.Ok? <==> requester.Some? && projectId in store.projects
                       && Member(store, store.projects[projectId].workspaceId, requester.value)
    ensures r.Ok? ==> forall t :: t in r.value ==> t.projectId == projectId && t.id in store.testCases
    ensures r.Ok? ==> forall k :: k in store.testCases && store.testCases[k].projectId == projectId
                                  ==> store.testCases[k] in r.value
    ensures !r.InternalError? && !r.BadRequest? && !r.Created?
  {
    var a := Authorize(store, requester, ProjectGuard(store, projectId));
    if a.Ok? then Ok(store.GetTestCasesByProjectId(projectId)) else Refuse(a)
  }

  /**
   * GET /api/folders/:folderId/test-cases: authorised through the folder's
   * project, which is dereferenced unchecked. The listing is by folder id
   * only: a test case of another project filed under this folder id is listed too.
   */
  function ListFolderTestCases(store: MemStorage, requester: Option<int>, folderId: int): (r: Outcome<seq<TestCase>>)
    reads store
    requires store.Valid()
    ensures r.Unauthorized? <==> requester.None?
    ensures r.NotFound? <==> requester.Some? && folderId !in store.folders
    ensures r.InternalError? <==> requester.Some? && folderId in store.folders
                                  && store.folders[folderId].projectId !in store.projects
    ensures r.Ok? <==> requester.Some? && folderId in store.folders && store.folders[folderId].projectId in store.projects
                       && Member(store, store.projects[store.folders[folderId].projectId].workspaceId, requester.value)
    ensures r.Ok? ==> forall t :: t in r.value ==> t.folderId == folderId && t.id in store.testCases
    ensures r.Ok? ==> forall k :: k in store.testCases && store.testCases[k].folderId == folderId
                                  ==> store.testCases[k] in r.value
    ensures Linked(store) ==> !r.InternalError?
    ensures !r.BadRequest? && !r.Created?
  {
    var a := Authorize(store, requester, FolderGuard(store, folderId));
    if a.Ok? then Ok(store.GetTestCasesByFolderId(folderId)) else Refuse(a)
  }

  /** GET /api/test-cases/:id. */
  function GetTestCase(store: MemStorage, requester: Option<int>, id: int): (r: Outcome<TestCase>)
    reads store
    requires store.Valid()
    ensures r.Unauthorized? <==> requester.None?
    ensures r.NotFound? <==> requester.Some? && id !in store.testCases
    ensures r.InternalError? <==> requester.Some? && id in store.testCases
                                  && store.testCases[id].projectId !in store.projects
    ensures r.Ok? <==> requester.Some? && id in store.testCases && store.testCases[id].projectId in store.projects
                       && Member(store, store.projects[store.testCases[id].projectId].workspaceId, requester.value)
    ensures r.Ok? ==> r.value == store.testCases[id]
    ensures Linked(store) ==> !r.InternalError?
    ensures !r.BadRequest? && !r.Created?
  {
    var a := Authorize(store, requester, TestCaseGuard(store, id));
    if a.Ok? then Ok(store.testCases[id]) else Refuse(a)
  }

  /** GET /api/projects/:projectId/test-executions. */
  function ListExecutions(store: MemStorage, requester: Option<int>, projectId: int): (r: Outcome<seq<TestExecution>>)
    reads store
    requires store.Valid()
    ensures r.Unauthorized? <==> requester.None?
    ensures r.NotFound? <==> requester.Some? && projectId !in store.projects
    ensures r.Ok? <==> requester.Some? && projectId in store.projects
                       && Member(store, store.projects[projectId].workspaceId, requester.value)
    ensures r.Ok? ==> forall e :: e in r.value ==> e.projectId == projectId && e.id in store.testExecutions
    ensures r.Ok? ==> forall k :: k in store.testExecutions && store.testExecutions[k].projectId == projectId
                                  ==> store.testExecutions[k] in r.value
    ensures !r.InternalError? && !r.BadRequest? && !r.Created?
  {
    var a := Authorize(store, requester, ProjectGuard(store, projectId));
    if a.Ok? then Ok(store.GetTestExecutionsByProjectId(projectId)) else Refuse(a)
  }

  /** GET /api/test-executions/:id/items. */
  function ListExecutionItems(store: MemStorage, requester: Option<int>, executionId: int)
    : (r: Outcome<seq<TestExecutionItem>>)
    reads store
    requires store.Valid()
    ensures r.Unauthorized? <==> requester.None?
    ensures r.NotFound? <==> requester.Some? && executionId !in store.testExecutions
    ensures r.InternalError? <==> requester.Some? && executionId in store.testExecutions
                                  && store.testExecutions[executionId].projectId !in store.projects
    ensures r.Ok? <==> requester.Some? && executionId in store.testExecutions
                       && store.testExecutions[executionId].projectId in store.projects
                       && Member(store, store.projects[store.testExecutions[executionId].projectId].workspaceId,
                                 requester.value)
    ensures r.Ok? ==> forall i :: 0 <= i < |r.value| ==> r.value[i].executionId == executionId
    ensures r.Ok? ==> forall k :: k in store.testExecutionItems && store.testExecutionItems[k].executionId == executionId
                                  ==> store.testExecutionItems[k] in r.value
    ensures Linked(store) ==> !r.InternalError?
    ensures !r.BadRequest? && !r.Created?
  {
    var a := Authorize(store, requester, ExecutionGuard(store, executionId));
    if a.Ok? then Ok(store.GetTestExecutionItems(executionId)) else Refuse(a)
  }

  // ----------------------------------------------------------- test ids

  /** The generated test id: "TC-" and the 1-based sequence number, zero-padded to four digits. */
  function TestId(count: nat): (id: string)
    ensures |id| >= 7 && id[..3] == "TC-"
    ensures forall i :: 3 <= i < |id| ==> IsDigit(id[i])
  {
    "TC-" + PadStart(Decimal(count + 1), 4, '0')
  }

  /** The sequence number written in a test id. */
  function TestNumber(id: string): nat
    requires |id| >= 3 && forall i :: 3 <= i < |id| ==> IsDigit(id[i])
  {
    DigitsValue(id[3..])
  }

  /** Reading the number back out of a generated test id gives count + 1. */
  lemma TestIdRoundTrip(count: nat)
    ensures TestNumber(TestId(count)) == count + 1
  {
    var digits := Decimal(count + 1);
    var padded := PadStart(digits, 4, '0');
    assert TestId(count)[3..] == padded;
    LeadingZeros(|padded| - |digits|, digits);
    DecimalValue(count + 1);
  }

  /** Different counts give different test ids. */
  lemma TestIdInjective(a: nat, b: nat)
    requires TestId(a) == TestId(b)
    ensures a == b
  {
    TestIdRoundTrip(a);
    TestIdRoundTrip(b);
  }

  lemma FirstTestIds()
    ensures TestId(0) == "TC-0001" && TestId(1) == "TC-0002" && TestId(41) == "TC-0042"
  {
    OneDigitTestId(0);
    OneDigitTestId(1);
    TwoDigitTestId(41);
  }

  /** Counts below 9 give a one-digit number padded with three zeros. */
  lemma OneDigitTestId(count: nat)
    requires count + 1 < 10
    ensures TestId(count) == "TC-000" + [DigitChar(count + 1)]
  {
    assert Repeat('0', 3) == "000";
  }

  /** Counts from 9 to 98 give a two-digit number padded with two zeros. */
  lemma TwoDigitTestId(count: nat)
    requires 10 <= count + 1 < 100
    ensures TestId(count) == "TC-00" + [DigitChar((count + 1) / 10), DigitChar((count + 1) % 10)]
  {
    assert Decimal((count + 1) / 10) == [DigitChar((count + 1) / 10)];
    assert Repeat('0', 2) == "00";
  }

  /** Number of test cases of the same project stored under a smaller key than `k`. */
  ghost function Rank(m: map<int, TestCase>, k: int): nat
    requires k in m
  {
    |set j | j in m && j < k && m[j].projectId == m[k].projectId|
  }

  /**
   * Each project's test cases, in id order, carry TC-0001, TC-0002, ...: the
   * test id of a case is TestId of the number of earlier cases of its project.
   */
  ghost predicate SequentialTestIds(store: MemStorage)
    reads store`testCases
  {
    SequentialIds(store.testCases)
  }

  ghost predicate SequentialIds(m: map<int, TestCase>)
  {
    forall k {:trigger Rank(m, k)} :: k in m ==> m[k].testId == TestId(Rank(m, k))
  }

  /** Under SequentialTestIds no two test cases of one project share a test id. */
  lemma TestIdsUnique(store: MemStorage, j: int, k: int)
    requires SequentialTestIds(store)
    requires j in store.testCases && k in store.testCases && j != k
    requires store.testCases[j].projectId == store.testCases[k].projectId
    ensures store.testCases[j].testId != store.testCases[k].testId
  {
    var m := store.testCases;
    if j < k {
      RankGrows(m, j, k);
    } else {
      RankGrows(m, k, j);
    }
    if m[j].testId == m[k].testId {
      TestIdInjective(Rank(m, j), Rank(m, k));
    }
  }

  lemma RankGrows(m: map<int, TestCase>, j: int, k: int)
    requires j in m && k in m && j < k && m[j].projectId == m[k].projectId
    ensures Rank(m, j) < Rank(m, k)
  {
    var below := set i | i in m && i < j && m[i].projectId == m[j].projectId;
    var upto := set i | i in m && i < k && m[i].projectId == m[k].projectId;
    var withJ := below + {j};
    assert j !in below;
    assert |withJ| == |below| + 1;
    assert upto == withJ + (upto - withJ);
    assert |upto| == |withJ| + |upto - withJ|;
  }

  /** Adding a case under a key above all others leaves every rank and counts the project's cases for the new one. */
  lemma RankAfterInsert(m: map<int, TestCase>, n: int, t: TestCase)
    requires forall k :: k in m ==> k < n
    ensures forall k :: k in m ==> Rank(m[n := t], k) == Rank(m, k)
    ensures Rank(m[n := t], n) == ProjectCaseCount(m, t.projectId)
  {
    var m' := m[n := t];
    forall k | k in m ensures Rank(m', k) == Rank(m, k) {
      assert (set j | j in m' && j < k && m'[j].projectId == m'[k].projectId)
          == (set j | j in m && j < k && m[j].projectId == m[k].projectId);
    }
    assert (set j | j in m' && j < n && m'[j].projectId == m'[n].projectId)
        == (set j | j in m && m[j].projectId == t.projectId);
  }

  // ----------------------------------------------------- write handlers

  /** Store-wide invariant every write handler keeps: Valid, Linked and SequentialTestIds, piece by piece. */
  ghost predicate Good(store: MemStorage)
    reads store
  {
    && store.UsersValid() && store.WorkspacesValid() && store.MembersValid() && store.ProjectsValid()
    && store.FoldersValid() && store.TestCasesValid() && store.ExecutionsValid() && store.ItemsValid()
    && MembersLinked(store) && ProjectsLinked(store) && FoldersLinked(store) && TestCasesLinked(store)
    && ExecutionsLinked(store) && ItemsLinked(store.testExecutionItems, store.testExecutions)
    && SequentialTestIds(store)
  }

  /** The server's store, as constructed at start-up, already satisfies Good: every handler can run on it. */
  method NewStore() returns (store: MemStorage)
    ensures Good(store)
    ensures store.workspaces == map[] && store.testCases == map[] && store.testExecutionItems == map[]
  {
    store := new MemStorage();
  }

  /** POST /api/workspaces: no guard; the creator becomes the workspace's "admin" member. */
  method CreateWorkspace(store: MemStorage, requester: Option<int>, body: WorkspaceBody, now: int)
    returns (r: Outcome<Workspace>)
    requires Good(store)
    modifies store`workspaces, store`currentWorkspaceId, store`workspaceMembers, store`currentWorkspaceMemberId
    ensures Good(store)
    ensures r.Unauthorized? <==> requester.None?
    ensures r.BadRequest? <==> requester.Some? && body.name.None?
    ensures r.BadRequest? ==> r.missing == ["name"]
    ensures r.Unauthorized? || r.BadRequest? || r.Created?
    ensures !r.Created? ==> store.workspaces == old(store.workspaces) && store.workspaceMembers == old(store.workspaceMembers)
    ensures !r.Created? ==> store.currentWorkspaceId == old(store.currentWorkspaceId)
                            && store.currentWorkspaceMemberId == old(store.currentWorkspaceMemberId)
    ensures r.Created? ==> r.value.id !in old(store.workspaces) && store.workspaces == old(store.workspaces)[r.value.id := r.value]
    ensures r.Created? ==> r.value.Insert() == InsertWorkspace(body.name.value, body.description, requester.value)
                           && r.value.createdAt == now
    ensures r.Created? ==> var m := store.currentWorkspaceMemberId - 1;
                           m !in old(store.workspaceMembers)
                           && store.workspaceMembers == old(store.workspaceMembers)[m := WorkspaceMember(m, r.value.id, requester.value, "admin")]
    ensures r.Created? ==> Member(store, r.value.id, requester.value)
  {
    if requester.None? {
      return Unauthorized;
    }
    var parsed := ParseWorkspace(body.(createdBy := Some(requester.value)));
    if parsed.Rejected? {
      return BadRequest(parsed.missing);
    }
    var workspace := store.CreateWorkspace(parsed.value, now);
    var member := store.AddWorkspaceMember(InsertWorkspaceMember(workspace.id, requester.value, "admin"));
    assert store.workspaceMembers[member.id] == member;
    r := Created(workspace);
  }

  /** POST /api/workspaces/:workspaceId/projects: the path's workspace and the requester override the body. */
  method CreateProject(store: MemStorage, requester: Option<int>, workspaceId: int, body: ProjectBody, now: int)
    returns (r: Outcome<Project>)
    requires Good(store)
    modifies store`projects, store`currentProjectId
    ensures Good(store)
    ensures r.Unauthorized? <==> requester.None?
    ensures r.Forbidden? <==> requester.Some? && !Member(store, workspaceId, requester.value)
    ensures r.BadRequest? <==> requester.Some? && Member(store, workspaceId, requester.value) && body.name.None?
    ensures r.BadRequest? ==> r.missing == ["name"]
    ensures r.Unauthorized? || r.Forbidden? || r.BadRequest? || r.Created?
    ensures !r.Created? ==> store.projects == old(store.projects) && store.currentProjectId == old(store.currentProjectId)
    ensures r.Created? ==> r.value.id !in old(store.projects) && store.projects == old(store.projects)[r.value.id := r.value]
    ensures r.Created? ==> r.value.Insert() == InsertProject(body.name.value, body.description, workspaceId, requester.value)
                           && r.value.createdAt == now
  {
    var a := Authorize(store, requester, Guarded(workspaceId));
    if !a.Ok? {
      return Refuse(a);
    }
    var parsed := ParseProject(body.(workspaceId := Some(workspaceId), createdBy := Some(requester.value)));
    if parsed.Rejected? {
      return BadRequest(parsed.missing);
    }
    var project := store.CreateProject(parsed.value, now);
    r := Created(project);
  }

  /** POST /api/projects/:projectId/folders. The parent folder is taken from the body unchecked. */
  method CreateFolder(store: MemStorage, requester: Option<int>, projectId: int, body: FolderBody, now: int)
    returns (r: Outcome<Folder>)
    requires Good(store)
    modifies store`folders, store`currentFolderId
    ensures Good(store)
    ensures r.Unauthorized? <==> requester.None?
    ensures r.NotFound? <==> requester.Some? && projectId !in store.projects
    ensures r.Forbidden? <==> requester.Some? && projectId in store.projects
                              && !Member(store, store.projects[projectId].workspaceId, requester.value)
    ensures r.BadRequest? <==> requester.Some? && projectId in store.projects
                               && Member(store, store.projects[projectId].workspaceId, requester.value) && body.name.None?
    ensures r.BadRequest? ==> r.missing == ["name"]
    ensures !r.InternalError? && !r.Ok?
    ensures !r.Created? ==> store.folders == old(store.folders) && store.currentFolderId == old(store.currentFolderId)
    ensures r.Created? ==> r.value.id !in old(store.folders) && store.folders == old(store.folders)[r.value.id := r.value]
    ensures r.Created? ==> r.value.Insert() == InsertFolder(body.name.value, projectId, body.parentId, requester.value)
                           && r.value.createdAt == now
  {
    var a := Authorize(store, requester, ProjectGuard(store, projectId));
    if !a.Ok? {
      return Refuse(a);
    }
    var parsed := ParseFolder(body.(projectId := Some(projectId), createdBy := Some(requester.value)));
    if parsed.Rejected? {
      return BadRequest(parsed.missing);
    }
    var folder := store.CreateFolder(parsed.value, now);
    r := Created(folder);
  }

  /**
   * POST /api/projects/:projectId/test-cases: the test id is generated from
   * the number of test cases the project already has; the path's project, the
   * requester and the generated id override the body.
   */
  method CreateTestCase(store: MemStorage, requester: Option<int>, projectId: int, body: TestCaseBody, now: int)
    returns (r: Outcome<TestCase>)
    requires Good(store)
    modifies store`testCases, store`currentTestCaseId
    ensures Good(store)
    ensures r.Unauthorized? <==> requester.None?
    ensures r.NotFound? <==> requester.Some? && projectId !in store.projects
    ensures r.Forbidden? <==> requester.Some? && projectId in store.projects
                              && !Member(store, store.projects[projectId].workspaceId, requester.value)
    ensures r.BadRequest? <==> requester.Some? && projectId in store.projects
                               && Member(store, store.projects[projectId].workspaceId, requester.value)
                               && !TestCaseComplete(body.(testId := Some(""), projectId := Some(0), createdBy := Some(0)))
    ensures r.BadRequest? ==> r.missing != []
    ensures r.BadRequest? ==> "test_id" !in r.missing && "project_id" !in r.missing && "created_by" !in r.missing
    ensures !r.InternalError? && !r.Ok?
    ensures !r.Created? ==> store.testCases == old(store.testCases) && store.currentTestCaseId == old(store.currentTestCaseId)
    ensures r.Created? ==> requester.Some? && TestCaseCreated(old(store.testCases), store.testCases, r.value, requester.value,
                                                              projectId, body, now)
  {
    var a := Authorize(store, requester, ProjectGuard(store, projectId));
    if !a.Ok? {
      return Refuse(a);
    }
    r := StartTestCase(store, requester.value, projectId, body, now);
  }

  /**
   * What a successful test-case creation leaves behind: the case stored under
   * a fresh id, with the body's columns, the path's project, the requester,
   * both timestamps `now`, and as test id the TestId of the number of cases
   * the project had before.
   */
  ghost predicate TestCaseCreated(before: map<int, TestCase>, after: map<int, TestCase>, t: TestCase, userId: int,
                                  projectId: int, body: TestCaseBody, now: int)
  {
    && t.id !in before && after == before[t.id := t]
    && t.projectId == projectId && t.createdBy == userId && t.createdAt == now && t.updatedAt == now
    && t.testId == TestId(ProjectCaseCount(before, projectId))
    && body.name.Some? && body.priority.Some? && body.status.Some? && body.testType.Some?
    && body.folderId.Some? && body.steps.Some?
    && t.name == body.name.value && t.description == body.description && t.priority == body.priority.value
    && t.status == body.status.value && t.testType == body.testType.value && t.preconditions == body.preconditions
    && t.folderId == body.folderId.value && t.steps == body.steps.value && t.tags == body.tags
  }

  /** The test-case handler past its membership check. */
  method StartTestCase(store: MemStorage, userId: int, projectId: int, body: TestCaseBody, now: int)
    returns (r: Outcome<TestCase>)
    requires Good(store) && projectId in store.projects
    modifies store`testCases, store`currentTestCaseId
    ensures Good(store)
    ensures r.BadRequest? <==> !TestCaseComplete(body.(testId := Some(""), projectId := Some(0), createdBy := Some(0)))
    ensures r.BadRequest? ==> r.missing != []
    ensures r.BadRequest? ==> "test_id" !in r.missing && "project_id" !in r.missing && "created_by" !in r.missing
    ensures r.BadRequest? || r.Created?
    ensures !r.Created? ==> store.testCases == old(store.testCases) && store.currentTestCaseId == old(store.currentTestCaseId)
    ensures r.Created? ==> TestCaseCreated(old(store.testCases), store.testCases, r.value, userId, projectId, body, now)
  {
    var count := store.GetTestCaseCount(projectId);
    var parsed := ParseWithOverrides(body, TestId(count), projectId, userId);
    if parsed.Rejected? {
      return BadRequest(parsed.missing);
    }
    var testCase := AddTestCase(store, parsed.value, now);
    r := Created(testCase);
  }

  /** Parsing the test-case body after the handler's overrides: only the body's own columns can be missing. */
  function ParseWithOverrides(body: TestCaseBody, testId: string, projectId: int, userId: int): (r: Parsed<InsertTestCase>)
    ensures r.Rejected? <==> !TestCaseComplete(body.(testId := Some(""), projectId := Some(0), createdBy := Some(0)))
    ensures r.Rejected? ==> r.missing != []
    ensures r.Rejected? ==> "test_id" !in r.missing && "project_id" !in r.missing && "created_by" !in r.missing
    ensures r.Parsed? ==> r.value.testId == testId && r.value.projectId == projectId && r.value.createdBy == userId
    ensures r.Parsed? ==>
      && body.name.Some? && body.priority.Some? && body.status.Some? && body.testType.Some?
      && body.folderId.Some? && body.steps.Some?
      && r.value.name == body.name.value && r.value.description == body.description
      && r.value.priority == body.priority.value && r.value.status == body.status.value
      && r.value.testType == body.testType.value && r.value.preconditions == body.preconditions
      && r.value.folderId == body.folderId.value && r.value.steps == body.steps.value && r.value.tags == body.tags
  {
    var full := body.(projectId := Some(projectId), createdBy := Some(userId), testId := Some(testId));
    assert TestCaseSupplies(full, "test_id") && TestCaseSupplies(full, "project_id") && TestCaseSupplies(full, "created_by");
    ParseTestCase(full)
  }

  /** Stores a test case whose test id continues its project's sequence, keeping SequentialTestIds. */
  method AddTestCase(store: MemStorage, data: InsertTestCase, now: int) returns (testCase: TestCase)
    requires Good(store)
    requires data.projectId in store.projects
    requires data.testId == TestId(ProjectCaseCount(store.testCases, data.projectId))
    modifies store`testCases, store`currentTestCaseId
    ensures Good(store)
    ensures testCase.id !in old(store.testCases) && store.testCases == old(store.testCases)[testCase.id := testCase]
    ensures testCase.Insert() == data && testCase.createdAt == now && testCase.updatedAt == now
  {
    ghost var before := store.testCases;
    testCase := store.CreateTestCase(data, now);
    InsertKeepsSequential(before, testCase.id, testCase);
  }

  /** A case stored under a fresh top key with its project's next test id keeps the test ids sequential. */
  lemma InsertKeepsSequential(m: map<int, TestCase>, n: int, t: TestCase)
    requires Dense(m, n) && SequentialIds(m)
    requires t.testId == TestId(ProjectCaseCount(m, t.projectId))
    ensures SequentialIds(m[n := t])
  {
    RankAfterInsert(m, n, t);
  }

  /** One item of a new execution: the requested test case, "Not Run", nothing recorded yet. */
  function NotRunItem(id: int, executionId: int, testCaseId: int): TestExecutionItem
  {
    TestExecutionItem(id, executionId, testCaseId, None, "Not Run", None, None, None, None)
  }

  /** The items the execution handler adds, keyed from `first` on. */
  function FanOut(executionId: int, testCaseIds: seq<int>, first: int): (r: seq<TestExecutionItem>)
    ensures |r| == |testCaseIds|
    ensures forall i :: 0 <= i < |r| ==> r[i] == NotRunItem(first + i, executionId, testCaseIds[i])
  {
    seq(|testCaseIds|, i requires 0 <= i < |testCaseIds| => NotRunItem(first + i, executionId, testCaseIds[i]))
  }

  /** The loop of the execution handler: one "Not Run" item per requested test case, in order, for a new execution. */
  method AddNotRunItems(store: MemStorage, executionId: int, ids: seq<int>)
    requires store.ItemsValid() && ItemsLinked(store.testExecutionItems, store.testExecutions)
    requires executionId in store.testExecutions
    requires forall k :: k in store.testExecutionItems ==> store.testExecutionItems[k].executionId != executionId
    modifies store`testExecutionItems, store`currentTestExecutionItemId
    ensures store.ItemsValid() && ItemsLinked(store.testExecutionItems, store.testExecutions)
    ensures store.currentTestExecutionItemId == old(store.currentTestExecutionItemId) + |ids|
    ensures forall k :: k in old(store.testExecutionItems) ==>
              k in store.testExecutionItems && store.testExecutionItems[k] == old(store.testExecutionItems)[k]
    ensures store.GetTestExecutionItems(executionId) == FanOut(executionId, ids, old(store.currentTestExecutionItemId))
  {
    var first := store.currentTestExecutionItemId;
    ghost var m0 := store.testExecutionItems;
    var i := 0;
    while i < |ids|
      invariant 0 <= i <= |ids|
      invariant store.ItemsValid() && store.currentTestExecutionItemId == first + i
      invariant store.testExecutionItems == Grown(m0, first, executionId, ids[..i])
    {
      var item := store.AddTestExecutionItem(InsertTestExecutionItem(executionId, ids[i], None, "Not Run"));
      GrowOne(m0, first, executionId, ids, i);
      i := i + 1;
    }
    assert ids[..|ids|] == ids;
    GrownDense(m0, first, executionId, ids);
    GrownKeeps(m0, first, executionId, ids);
    GrownLinked(m0, store.testExecutions, first, executionId, ids);
    GrownSelect(m0, first, executionId, ids);
  }

  /** The items after the fan-out loop has added one item per element of `ids`. */
  ghost function Grown(m0: map<int, TestExecutionItem>, first: int, executionId: int, ids: seq<int>): map<int, TestExecutionItem>
    decreases |ids|
  {
    if ids == [] then m0
    else
      var n := |ids| - 1;
      Grown(m0, first, executionId, ids[..n])[first + n := NotRunItem(first + n, executionId, ids[n])]
  }

  lemma GrowOne(m0: map<int, TestExecutionItem>, first: int, executionId: int, ids: seq<int>, i: int)
    requires 0 <= i < |ids|
    ensures Grown(m0, first, executionId, ids[..i + 1])
            == Grown(m0, first, executionId, ids[..i])[first + i := NotRunItem(first + i, executionId, ids[i])]
  {
    assert ids[..i + 1][..i] == ids[..i];
  }

  /** The new items take the keys `first` .. `first + |ids| - 1`. */
  lemma {:induction false} GrownDense(m0: map<int, TestExecutionItem>, first: int, executionId: int, ids: seq<int>)
    requires Dense(m0, first)
    ensures Dense(Grown(m0, first, executionId, ids), first + |ids|)
    decreases |ids|
  {
    if ids != [] {
      GrownDense(m0, first, executionId, ids[..|ids| - 1]);
    }
  }

  /** The items stored before are left as they were. */
  lemma {:induction false} GrownKeeps(m0: map<int, TestExecutionItem>, first: int, executionId: int, ids: seq<int>)
    requires Dense(m0, first)
    ensures forall k :: k in m0 ==> k in Grown(m0, first, executionId, ids) && Grown(m0, first, executionId, ids)[k] == m0[k]
    decreases |ids|
  {
    if ids != [] {
      GrownKeeps(m0, first, executionId, ids[..|ids| - 1]);
    }
  }

  /** The new items belong to an existing execution, so every item stays linked. */
  lemma {:induction false} GrownLinked(m0: map<int, TestExecutionItem>, executions: map<int, TestExecution>, first: int,
                                       executionId: int, ids: seq<int>)
    requires ItemsLinked(m0, executions) && executionId in executions
    ensures ItemsLinked(Grown(m0, first, executionId, ids), executions)
    decreases |ids|
  {
    if ids != [] {
      GrownLinked(m0, executions, first, executionId, ids[..|ids| - 1]);
    }
  }

  /** The execution lists exactly the new items, in order, when it had none before. */
  lemma {:induction false} GrownSelect(m0: map<int, TestExecutionItem>, first: int, executionId: int, ids: seq<int>)
    requires Dense(m0, first)
    requires forall k :: k in m0 ==> m0[k].executionId != executionId
    ensures Dense(Grown(m0, first, executionId, ids), first + |ids|)
    ensures Select(Grown(m0, first, executionId, ids), first + |ids|, ItemOf(executionId)) == FanOut(executionId, ids, first)
    decreases |ids|
  {
    if ids == [] {
      SelectNone(m0, first, ItemOf(executionId));
    } else {
      var n := |ids| - 1;
      var prefix := ids[..n];
      var x := NotRunItem(first + n, executionId, ids[n]);
      GrownSelect(m0, first, executionId, prefix);
      ListedStep(Grown(m0, first, executionId, prefix), first + |prefix|, first + n, first + |ids|, executionId, x,
                 FanOut(executionId, prefix, first));
      FanOutSnoc(executionId, ids, first, n);
      assert ids[..n + 1] == ids;
    }
  }

  /** Adding an item of the execution under the next key appends it to the execution's listing. */
  lemma ListedStep(m: map<int, TestExecutionItem>, next: int, key: int, after: int, executionId: int, x: TestExecutionItem,
                   listed: seq<TestExecutionItem>)
    requires key == next && after == next + 1
    requires Dense(m, next) && Select(m, next, ItemOf(executionId)) == listed && x.executionId == executionId
    ensures Dense(m[key := x], after)
    ensures Select(m[key := x], after, ItemOf(executionId)) == listed + [x]
  {
    SelectExtend(m, next, ItemOf(executionId), x);
  }

  lemma FanOutSnoc(executionId: int, ids: seq<int>, first: int, i: int)
    requires 0 <= i < |ids|
    ensures FanOut(executionId, ids[..i + 1], first) == FanOut(executionId, ids[..i], first) + [NotRunItem(first + i, executionId, ids[i])]
  {
    assert ids[..i + 1][i] == ids[i];
  }

  /**
   * POST /api/projects/:projectId/test-executions: after creating the
   * execution, one "Not Run" item per element of `test_case_ids` (when the
   * body carries an array), in order. The ids are not checked against the
   * project's test cases.
   */
  method CreateTestExecution(store: MemStorage, requester: Option<int>, projectId: int, body: ExecutionBody, now: int)
    returns (r: Outcome<TestExecution>)
    requires Good(store)
    modifies store`testExecutions, store`currentTestExecutionId
    modifies store`testExecutionItems, store`currentTestExecutionItemId
    ensures Good(store)
    ensures r.Unauthorized? <==> requester.None?
    ensures r.NotFound? <==> requester.Some? && projectId !in store.projects
    ensures r.Forbidden? <==> requester.Some? && projectId in store.projects
                              && !Member(store, store.projects[projectId].workspaceId, requester.value)
    ensures r.BadRequest? <==> requester.Some? && projectId in store.projects
                               && Member(store, store.projects[projectId].workspaceId, requester.value)
                               && (body.name.None? || body.status.None?)
    ensures !r.InternalError? && !r.Ok?
    ensures !r.Created? ==> store.testExecutions == old(store.testExecutions) && store.testExecutionItems == old(store.testExecutionItems)
    ensures !r.Created? ==> store.currentTestExecutionId == old(store.currentTestExecutionId)
                            && store.currentTestExecutionItemId == old(store.currentTestExecutionItemId)
    ensures r.Created? ==> requester.Some? && ExecutionCreated(store, old(store.testExecutions), old(store.testExecutionItems),
                                                                old(store.currentTestExecutionItemId),
                                                                r.value, requester.value, projectId, body, now)
  {
    var a := Authorize(store, requester, ProjectGuard(store, projectId));
    if !a.Ok? {
      return Refuse(a);
    }
    r := StartExecution(store, requester.value, projectId, body, now);
  }

  /**
   * What a successful execution creation leaves behind: the execution stored
   * under a fresh id with the body's columns, the path's project and the
   * requester; every earlier item kept; and, listed for the new execution,
   * exactly one "Not Run" item per requested test case, in request order.
   */
  ghost predicate ExecutionCreated(store: MemStorage, executions0: map<int, TestExecution>,
                                   items0: map<int, TestExecutionItem>, next0: int,
                                   e: TestExecution, userId: int, projectId: int, body: ExecutionBody, now: int)
    reads store
    requires store.ItemsValid()
  {
    var ids := if body.testCaseIds.Some? then body.testCaseIds.value else [];
    && e.id !in executions0 && store.testExecutions == executions0[e.id := e]
    && body.name.Some? && body.status.Some?
    && e.Insert() == InsertTestExecution(body.name.value, body.description, projectId, userId, body.status.value)
    && e.createdAt == now
    && (forall k :: k in items0 ==> k in store.testExecutionItems && store.testExecutionItems[k] == items0[k])
    && store.currentTestExecutionItemId == next0 + |ids|
    && store.GetTestExecutionItems(e.id) == FanOut(e.id, ids, next0)
  }

  /** Stores the execution, then its items: the part of the execution handler that writes. */
  method OpenExecution(store: MemStorage, data: InsertTestExecution, ids: seq<int>, now: int)
    returns (execution: TestExecution)
    requires store.ExecutionsValid() && store.ItemsValid() && data.projectId in store.projects
    requires ExecutionsLinked(store) && ItemsLinked(store.testExecutionItems, store.testExecutions)
    modifies store`testExecutions, store`currentTestExecutionId
    modifies store`testExecutionItems, store`currentTestExecutionItemId
    ensures store.ExecutionsValid() && store.ItemsValid()
    ensures ExecutionsLinked(store) && ItemsLinked(store.testExecutionItems, store.testExecutions)
    ensures execution.id !in old(store.testExecutions) && store.testExecutions == old(store.testExecutions)[execution.id := execution]
    ensures execution.Insert() == data && execution.createdAt == now
    ensures forall k :: k in old(store.testExecutionItems) ==>
              k in store.testExecutionItems && store.testExecutionItems[k] == old(store.testExecutionItems)[k]
    ensures store.currentTestExecutionItemId == old(store.currentTestExecutionItemId) + |ids|
    ensures store.GetTestExecutionItems(execution.id) == FanOut(execution.id, ids, old(store.currentTestExecutionItemId))
  {
    execution := store.CreateTestExecution(data, now);
    assert ExecutionsLinked(store);
    assert forall k :: k in store.testExecutionItems ==> store.testExecutionItems[k].executionId != execution.id;
    AddNotRunItems(store, execution.id, ids);
  }

  /** The execution handler past its membership check. */
  method StartExecution(store: MemStorage, userId: int, projectId: int, body: ExecutionBody, now: int)
    returns (r: Outcome<TestExecution>)
    requires Good(store) && projectId in store.projects
    modifies store`testExecutions, store`currentTestExecutionId
    modifies store`testExecutionItems, store`currentTestExecutionItemId
    ensures Good(store)
    ensures r.BadRequest? <==> body.name.None? || body.status.None?
    ensures r.BadRequest? || r.Created?
    ensures !r.Created? ==> store.testExecutions == old(store.testExecutions) && store.testExecutionItems == old(store.testExecutionItems)
    ensures !r.Created? ==> store.currentTestExecutionId == old(store.currentTestExecutionId)
                            && store.currentTestExecutionItemId == old(store.currentTestExecutionItemId)
    ensures r.Created? ==> ExecutionCreated(store, old(store.testExecutions), old(store.testExecutionItems),
                                            old(store.currentTestExecutionItemId), r.value, userId, projectId, body, now)
  {
    var parsed := ParseExecution(body.(projectId := Some(projectId), createdBy := Some(userId)));
    if parsed.Rejected? {
      return BadRequest(parsed.missing);
    }
    var ids := if body.testCaseIds.Some? then body.testCaseIds.value else [];
    var execution := OpenExecution(store, parsed.value, ids, now);
    r := Created(execution);
  }

  // ------------------------------------------------------ item updates

  /**
   * The update the item handler applies as written: the whole request body,
   * then `executed_by` and `executed_at` stamped over it. A body naming
   * `id`, `execution_id` or `test_case_id` rewrites them too.
   */
  function AsWrittenPatch(body: ItemPatch, userId: int, now: int): (p: ItemPatch)
    ensures p.executionId == body.executionId && p.id == body.id && p.testCaseId == body.testCaseId
    ensures p.executedBy == Some(Some(userId)) && p.executedAt == Some(Some(now))
  {
    body.(executedBy := Some(Some(userId)), executedAt := Some(Some(now)))
  }

  /**
   * The update the execution page means to make: status, result, comments
   * (and assignment) from the body, the executor and the time stamped; the
   * item's identity and its links are never taken from the body.
   */
  function StatusPatch(body: ItemPatch, userId: int, now: int): (p: ItemPatch)
    ensures p.id.None? && p.executionId.None? && p.testCaseId.None?
    ensures p.status == body.status && p.result == body.result && p.comments == body.comments
    ensures p.executedBy == Some(Some(userId)) && p.executedAt == Some(Some(now))
  {
    AsWrittenPatch(body, userId, now).(id := None, executionId := None, testCaseId := None)
  }

  /** Applying the corrected update keeps the item's id, execution and test case, and records who ran it and when. */
  lemma StatusPatchKeepsIdentity(item: TestExecutionItem, body: ItemPatch, userId: int, now: int)
    ensures var r := Merge(item, StatusPatch(body, userId, now));
            r.id == item.id && r.executionId == item.executionId && r.testCaseId == item.testCaseId
            && r.executedBy == Some(userId) && r.executedAt == Some(now)
            && (body.status.Some? ==> r.status == body.status.value)
            && (body.status.None? ==> r.status == item.status)
  {
  }

  /** The corrected update never breaks an item's link to its execution. */
  lemma StatusPatchKeepsLinks(items: map<int, TestExecutionItem>, executions: map<int, TestExecution>,
                              id: int, body: ItemPatch, userId: int, now: int)
    requires ItemsLinked(items, executions) && id in items
    ensures ItemsLinked(items[id := Merge(items[id], StatusPatch(body, userId, now))], executions)
  {
  }

  /**
   * The update as written moves an item into another execution: a member of
   * execution 1's workspace sends `execution_id: 2` and the item now belongs
   * to execution 2 — of another workspace, or missing altogether, after which
   * every request about the item fails with a 500.
   */
  lemma AsWrittenPatchMovesItem()
    ensures var item := NotRunItem(1, 1, 1);
            var executions := map[1 := TestExecution(1, "Smoke", None, 1, 1, 0, "Planned")];
            var body := ItemPatch(None, Some(2), None, None, Some("Passed"), None, None, None, None);
            var moved := Merge(item, AsWrittenPatch(body, 1, 0));
            ItemsLinked(map[1 := item], executions)
            && moved.executionId == 2
            && !ItemsLinked(map[1 := moved], executions)
  {
    var moved := Merge(NotRunItem(1, 1, 1), AsWrittenPatch(ItemPatch(None, Some(2), None, None, Some("Passed"), None, None, None, None), 1, 0));
    assert moved.executionId == 2;
    assert map[1 := moved][1].executionId !in map[1 := TestExecution(1, "Smoke", None, 1, 1, 0, "Planned")];
  }

  /**
   * PATCH /api/test-execution-items/:id: authorised through the item's
   * execution's project (both dereferenced unchecked), then the corrected
   * update is merged into the item.
   */
  method PatchTestExecutionItem(store: MemStorage, requester: Option<int>, itemId: int, body: ItemPatch, now: int)
    returns (r: Outcome<TestExecutionItem>)
    requires Good(store)
    modifies store`testExecutionItems
    ensures Good(store)
    ensures r.Unauthorized? <==> requester.None?
    ensures r.NotFound? <==> requester.Some? && itemId !in store.testExecutionItems
    ensures r.Forbidden? <==> requester.Some? && itemId in store.testExecutionItems
                              && !Member(store, ItemGuard(store, itemId).workspaceId, requester.value)
    ensures !r.InternalError? && !r.BadRequest? && !r.Created?
    ensures !r.Ok? ==> store.testExecutionItems == old(store.testExecutionItems)
    ensures r.Ok? ==> itemId in old(store.testExecutionItems)
                      && r.value == Merge(old(store.testExecutionItems)[itemId], StatusPatch(body, requester.value, now))
                      && store.testExecutionItems == old(store.testExecutionItems)[itemId := r.value]
  {
    var a := Authorize(store, requester, ItemGuard(store, itemId));
    if !a.Ok? {
      return Refuse(a);
    }
    ghost var items0 := store.testExecutionItems;
    var updated := store.UpdateTestExecutionItem(itemId, StatusPatch(body, requester.value, now));
    StatusPatchKeepsLinks(items0, store.testExecutions, itemId, body, requester.value, now);
    r := Ok(updated.value);
  }
}
