# Raptors test management core, in Dafny

A verified model of the core of a small test-management web application:
- workspaces, with their members;
- projects;
- folders of test cases;
- test cases with numbered steps and tags;
- test executions ("test cycles"), whose items record a status per test case.

The model covers four parts of the application.

- **The in-memory store**, `Storage.MemStorage`, modelled on `server/storage.ts`.
  - It is a class with one `map<int, Record>` per entity kind and one auto-increment counter per kind.
  - Each create takes the current counter as the new id and increments the counter.
  - The getters filter the stored values in insertion order. Insertion order is ascending id order, because nothing is ever deleted.
  - The item update spreads a partial record over the stored one.
- **The JSON API handlers**, module `Routes`, modelled on `server/routes.ts`.
  - Each handler checks, in this order:
    - an unauthenticated request gets 401;
    - a missing record gets 404;
    - the handler walks up to the workspace that owns the record;
    - a requester who is not a member of that workspace gets 403.
  - A parent that the handler dereferences without checking gives 500 when it is missing.
  - Read handlers are functions of the store. Write handlers are methods that change only the maps they create records in.
  - Every write handler keeps the store-wide invariant `Routes.Good`, which holds three things:
    - dense keys;
    - referential integrity;
    - per-project test ids `TC-0001`, `TC-0002`, … in creation order.
- **The record shapes and insert whitelists**, module `Schema`, modelled on `shared/schema.ts`.
  - Stored records and insert records are separate datatypes.
  - An insert record never carries `id` or the timestamps.
  - An execution-item insert carries only `execution_id`, `test_case_id`, `assigned_to` and `status`.
  - `Parse*` is the required-column check the insert schemas perform.
- **The client-side list helpers**:
  - `TestCaseForm`: defaults, steps, tags and the creation request;
  - `TestExecutionPage`: status changes, icons and badges, and the new-cycle request;
  - `FolderTree`: child filtering, tree rows and the folder request;
  - `TestCaseList`: selection, select-all and badges;
  - `TestCasesPage`: search and the listing endpoint.
  - The three selection toggles are one function, `Common.Toggle`.

Shared helpers:
- `Common` holds the sequence and map helpers: `filter`, and insertion-ordered selection over a dense map.
- `Text` holds the JavaScript string operations the core uses: `toLowerCase`, `includes`, `trim`, `split`, `join`, `toString` and `padStart`.

Timestamps are a clock value `now` passed in as a parameter. The authenticated user is an `Option<int>` requester.

## Model

| member | source | states |
|---|---|---|
| Storage.MemStorage.constructor | server/storage.ts:85-102 | all eight maps are empty, all eight counters are 1, and the store is valid |
| Storage.MemStorage.GetUser | server/storage.ts:110-112 | Some exactly when the id is stored, and then it is the stored user |
| Storage.MemStorage.GetUserByUsername | server/storage.ts:114-118 | the stored user with that username that comes first in id order; None exactly when no stored user has it |
| Storage.MemStorage.CreateUser | server/storage.ts:120-129 | new id = old counter, not stored before; counter + 1; the map gains exactly that entry; record = insert + `created_at` now |
| Storage.MemStorage.GetWorkspace | server/storage.ts:132-134 | Some exactly when the id is stored, and then it is the stored workspace |
| Storage.MemStorage.GetWorkspacesByUserId | server/storage.ts:136-147 | the user's memberships in insertion order, each mapped to its stored workspace (one entry per membership, missing workspaces dropped); every result is reached through a membership and none is lost |
| Storage.WorkspacesOf | server/storage.ts:141-144 | the i-th result is the stored workspace of the i-th membership that has one, so order follows the memberships and a workspace reached twice is listed twice; each result comes from a membership, none is lost |
| Storage.MemStorage.CreateWorkspace | server/storage.ts:149-158 | fresh id = old counter, counter + 1, exactly one entry added, record = insert + `created_at` |
| Storage.MemStorage.AddWorkspaceMember | server/storage.ts:161-169 | fresh id = old counter, counter + 1, exactly one entry added, record = insert + id |
| Storage.MemStorage.GetWorkspaceMembers | server/storage.ts:171-174 | exactly the stored memberships of the workspace, in ascending id (insertion) order |
| Storage.MemStorage.IsWorkspaceMember | server/storage.ts:176-179 | true iff some stored membership row has that workspace and user, whatever its role |
| Storage.MemStorage.GetProject | server/storage.ts:182-184 | Some exactly when the id is stored, and then it is the stored project |
| Storage.MemStorage.GetProjectsByWorkspaceId | server/storage.ts:186-189 | exactly the stored projects of the workspace, in ascending id order |
| Storage.MemStorage.CreateProject | server/storage.ts:191-200 | fresh id = old counter, counter + 1, exactly one entry added, record = insert + `created_at` |
| Storage.MemStorage.GetFolder | server/storage.ts:203-205 | Some exactly when the id is stored, and then it is the stored folder |
| Storage.MemStorage.GetFoldersByProjectId | server/storage.ts:207-210 | exactly the stored folders of the project, in ascending id order |
| Storage.MemStorage.CreateFolder | server/storage.ts:212-221 | fresh id = old counter, counter + 1, exactly one entry added, record = insert + `created_at` |
| Storage.MemStorage.GetTestCase | server/storage.ts:224-226 | Some exactly when the id is stored, and then it is the stored test case |
| Storage.MemStorage.GetTestCasesByProjectId | server/storage.ts:228-231 | exactly the stored test cases of the project, in ascending id order |
| Storage.MemStorage.GetTestCasesByFolderId | server/storage.ts:233-236 | exactly the stored test cases filed under the folder id, in ascending id order |
| Storage.MemStorage.CreateTestCase | server/storage.ts:238-249 | fresh id = old counter, counter + 1, exactly one entry added; `created_at` and `updated_at` are the same instant |
| Storage.MemStorage.GetTestCaseCount | server/storage.ts:251-255 | equals the length of the project's listing and the number of stored test cases of the project |
| Storage.MemStorage.GetTestExecution | server/storage.ts:258-260 | Some exactly when the id is stored, and then it is the stored execution |
| Storage.MemStorage.GetTestExecutionsByProjectId | server/storage.ts:262-265 | exactly the stored executions of the project, in ascending id order |
| Storage.MemStorage.CreateTestExecution | server/storage.ts:267-276 | fresh id = old counter, counter + 1, exactly one entry added, record = insert + `created_at` |
| Storage.MemStorage.GetTestExecutionItem | server/storage.ts:279-281 | Some exactly when the id is stored, and then it is the stored item |
| Storage.MemStorage.GetTestExecutionItems | server/storage.ts:283-286 | exactly the stored items of the execution, as a subsequence of the items in insertion order |
| Storage.MemStorage.AddTestExecutionItem | server/storage.ts:288-300 | fresh id = old counter, counter + 1; `result`, `comments`, `executed_by` and `executed_at` are null whatever the input |
| Storage.MemStorage.UpdateTestExecutionItem | server/storage.ts:302-314 | fails (None) exactly on an absent id and then changes nothing; otherwise stores the old item with exactly the supplied columns overwritten; no other item changes |
| Storage.Merge | server/storage.ts:308-311 | an empty partial record leaves the item as it was |
| Storage.MergeCombine | server/storage.ts:308-311 | spreading two partial records in turn equals spreading their combination once |
| Storage.MergeIdempotent | server/storage.ts:308-311 | spreading the same partial record twice equals spreading it once |
| Schema.ParseWorkspace | shared/schema.ts:24-36 | parses iff `name` and `created_by` are present, and copies exactly the whitelisted columns; a rejection names each missing column |
| Schema.ParseProject | shared/schema.ts:57-71 | parses iff `name`, `workspace_id` and `created_by` are present; copies the whitelisted columns; names each missing column |
| Schema.ParseFolder | shared/schema.ts:76-90 | parses iff `name`, `project_id` and `created_by` are present; `parent_id` may be null; names each missing column |
| Schema.ParseTestCase | shared/schema.ts:95-126 | parses iff all nine not-null columns are present (`steps` required, `tags` optional); copies every whitelisted column; a rejection lists exactly the missing required columns |
| Schema.ParseExecution | shared/schema.ts:131-148 | parses iff `name`, `project_id`, `created_by` and `status` are present; copies the whitelisted columns |
| Routes.Authorize | server/routes.ts:59-71 | 401 iff no requester; 404 iff the guarded record is missing; 500 iff a dereferenced parent is missing; 403 iff the requester is not a member of the owning workspace; otherwise Ok with the requester |
| Routes.Refuse | server/routes.ts:59-71 | a refusal passes through unchanged as another handler's response |
| Routes.LinkedGuards | server/routes.ts:236-248 | with referential integrity, no folder, test-case, execution or item guard dangles: every 500 comes from a broken link |
| Routes.NewStore | server/storage.ts:317 | the store the server starts with holds no records and already satisfies `Good` |
| Routes.ListWorkspaces | server/routes.ts:20-29 | 401 iff unauthenticated; otherwise the stored workspace of each of the requester's memberships, in membership order |
| Routes.GetWorkspace | server/routes.ts:58-77 | 401, then 404 iff missing, then 403 iff not a member; Ok returns the stored workspace |
| Routes.ListProjects | server/routes.ts:80-97 | 401; 403 iff not a member, which includes an unknown workspace; Ok lists exactly the workspace's projects |
| Routes.GetProject | server/routes.ts:127-146 | 401, 404 iff the project is missing, 403 iff not a member of its workspace; Ok returns it |
| Routes.ListFolders | server/routes.ts:149-171 | 401, 404 iff the project is missing, 403; Ok lists exactly the project's folders |
| Routes.ListProjectTestCases | server/routes.ts:207-229 | 401, 404 iff the project is missing, 403; Ok lists exactly the project's test cases |
| Routes.ListFolderTestCases | server/routes.ts:231-255 | 401, 404 iff the folder is missing, 500 iff its project is missing, 403; Ok lists exactly the test cases filed under the folder id |
| Routes.GetTestCase | server/routes.ts:295-317 | 401, 404 iff the test case is missing, 500 iff its project is missing, 403; Ok returns it |
| Routes.ListExecutions | server/routes.ts:320-342 | 401, 404 iff the project is missing, 403; Ok lists exactly the project's executions |
| Routes.ListExecutionItems | server/routes.ts:389-413 | 401, 404 iff the execution is missing, 500 iff its project is missing, 403; Ok lists exactly the execution's items |
| Routes.CreateWorkspace | server/routes.ts:31-56 | 401 iff unauthenticated; 400 iff no name; otherwise one new workspace, whose creator is the requester, and one new "admin" membership, so the requester is a member; keeps `Good` |
| Routes.CreateProject | server/routes.ts:99-125 | 401, 403 iff not a member, 400 iff no name; the created project takes its workspace from the path and its creator from the session; nothing changes on refusal; keeps `Good` |
| Routes.CreateFolder | server/routes.ts:173-204 | 401, 404, 403, 400; the created folder takes its project from the path, its creator from the session, and its parent from the body; keeps `Good` |
| Routes.CreateTestCase | server/routes.ts:257-293 | 401, 404, 403, then 400 iff a body column is missing (never `test_id`, `project_id` or `created_by`); the new case's `test_id` is the TestId of the project's earlier count; keeps `Good` |
| Routes.StartTestCase | server/routes.ts:274-286 | past the checks: 400 iff the body lacks a required column of its own, otherwise the case is stored as `TestCaseCreated` describes |
| Routes.ParseWithOverrides | server/routes.ts:278-283 | with `test_id`, `project_id` and `created_by` supplied by the handler, only the body's own columns can be missing, and those three always come from the handler |
| Routes.AddTestCase | server/routes.ts:285 | stores the case under a fresh id and keeps per-project test ids sequential |
| Routes.InsertKeepsSequential | server/routes.ts:275-285 | a case added under the next key with its project's next test id keeps each project's ids TC-0001, TC-0002, … |
| Routes.TestId | server/routes.ts:276 | "TC-" followed only by digits, at least seven characters |
| Routes.TestIdRoundTrip | server/routes.ts:276 | the number written in `TestId(count)` is `count + 1` |
| Routes.TestIdInjective | server/routes.ts:276 | different counts give different test ids |
| Routes.FirstTestIds | server/routes.ts:276 | the first ids are TC-0001 and TC-0002; count 41 gives TC-0042 |
| Routes.OneDigitTestId | server/routes.ts:276 | a one-digit number is padded with three zeros |
| Routes.TwoDigitTestId | server/routes.ts:276 | a two-digit number is padded with two zeros |
| Routes.TestIdsUnique | server/routes.ts:274-283 | under sequential ids, no two test cases of one project share a test id |
| Routes.RankGrows | server/routes.ts:274-283 | a later test case of a project has a strictly higher position among its project's cases |
| Routes.RankAfterInsert | server/routes.ts:274-285 | a case stored under a new top key leaves every earlier position as it was, and its own position is the project's previous count |
| Routes.FanOut | server/routes.ts:371-377 | one item per requested id, in order, with consecutive keys, status "Not Run" and nothing recorded |
| Routes.AddNotRunItems | server/routes.ts:370-378 | the loop: the counter grows by the number of ids; earlier items are kept; the execution then lists exactly `FanOut` of the ids |
| Routes.GrownDense | server/routes.ts:371-377 | the added items take the next consecutive keys |
| Routes.GrownKeeps | server/routes.ts:371-377 | the items stored before the loop are unchanged |
| Routes.GrownLinked | server/routes.ts:371-377 | each added item belongs to an existing execution, so items stay linked |
| Routes.GrownSelect | server/routes.ts:371-377 | a new execution lists exactly the added items, in request order |
| Routes.OpenExecution | server/routes.ts:367-378 | the execution is stored under a fresh id, then one "Not Run" item per id, in order; earlier items are kept |
| Routes.StartExecution | server/routes.ts:361-380 | past the checks: 400 iff `name` or `status` is missing; otherwise the execution and its items are created as `ExecutionCreated` says; nothing changes on 400 |
| Routes.CreateTestExecution | server/routes.ts:344-387 | 401, 404, 403, 400; on success the new execution takes its project from the path and its creator from the session, and lists exactly one "Not Run" item per `test_case_ids` element (none when the field is absent); keeps `Good` |
| Routes.AsWrittenPatch | server/routes.ts:435-439 | the body as sent, with `executed_by` and `executed_at` stamped over it; `id`, `execution_id` and `test_case_id` pass through |
| Routes.AsWrittenPatchMovesItem | server/routes.ts:435-439 | the update as written can move an item into another (or a missing) execution, breaking the item's link |
| Routes.StatusPatch | server/routes.ts:435-439 | the corrected update: status, result and comments from the body, the stamps from the requester and the clock, and no identity columns |
| Routes.StatusPatchKeepsIdentity | server/routes.ts:435-439 | the corrected update keeps the item's id, execution and test case; it records the executor and time, and the new status when one is sent |
| Routes.StatusPatchKeepsLinks | server/routes.ts:435-439 | the corrected update never breaks an item's link to its execution |
| Routes.PatchTestExecutionItem | server/routes.ts:415-445 | 401, 404 iff the item is missing, 403 iff not a member; on success exactly that item is replaced by its merge with the corrected update; keeps `Good` |
| Common.Toggle | client/src/pages/test-execution-page.tsx:125-131 | the id is in the result iff it was not in the selection; other ids are unaffected; an absent id is appended; a present id is removed, every other id kept as often as it occurred, in order |
| Common.FilterCount | client/src/components/test-case/test-case-form.tsx:171 | filtering keeps every occurrence of a satisfying element and none of the others |
| Common.ToggleTwice | client/src/components/test-case/test-case-list.tsx:22-28 | toggling the same id twice, starting without it, restores the selection |
| Common.LookupOr | client/src/components/test-case/test-case-list.tsx:50 | the table entry of a known key, the fallback entry otherwise |
| Common.Select | server/storage.ts:283-286 | the stored values satisfying the filter, each present, none lost, in insertion order |
| Text.ToLower | client/src/pages/test-cases-page.tsx:50-51 | the same length, with each character lowercased |
| Text.Includes | client/src/pages/test-cases-page.tsx:50-51 | true iff the needle occurs at some position |
| Text.Trim | client/src/components/test-case/test-case-form.tsx:125 | the input minus leading and trailing whitespace, with no whitespace left at either end |
| Text.Split | client/src/components/test-case/test-case-form.tsx:125 | one piece more than there are separators, none of them containing the separator; joining the pieces gives the input back |
| Text.SplitJoin | client/src/components/test-case/test-case-form.tsx:81-125 | splitting a join of separator-free pieces gives the pieces back |
| Text.Decimal | server/routes.ts:276 | decimal digits, no leading zero |
| Text.DecimalValue | server/routes.ts:276 | the digits written by `Decimal(n)` have value `n` |
| Text.PadStart | server/routes.ts:276 | pads on the left with the pad character up to the length; a string already long enough is unchanged |
| Text.LeadingZeros | server/routes.ts:276 | zero padding changes neither the digit form nor the value |
| TestCaseForm.NewFormDefaults | client/src/components/test-case/test-case-form.tsx:62-106 | priority "Medium", status "Draft", type "Functional", two empty steps with ids 1 and 2, no tags; folder 0 without an initial folder; validation refuses it |
| TestCaseForm.OrEmpty | client/src/components/test-case/test-case-form.tsx:89 | a null text becomes "" and any other text is kept |
| TestCaseForm.EditDefaults | client/src/components/test-case/test-case-form.tsx:69-96 | the stored test case's columns, with nullable texts as "" and tags joined with ", " |
| TestCaseForm.MaxId | client/src/components/test-case/test-case-form.tsx:161 | an id that some step has, and that no step's id exceeds |
| TestCaseForm.NextStepId | client/src/components/test-case/test-case-form.tsx:161 | 1 for no steps; otherwise one more than the largest existing id (`MaxId`, which is attained and bounds every id), so larger than every id |
| TestCaseForm.AddStep | client/src/components/test-case/test-case-form.tsx:159-167 | exactly the step `{ id: NextStepId, action: "", expected_result: "" }` appended, whose id is unlike every other; earlier steps unchanged; length + 1 |
| TestCaseForm.AddStepKeepsDistinct | client/src/components/test-case/test-case-form.tsx:159-167 | adding a step keeps the step ids distinct |
| TestCaseForm.AddStepToDefaults | client/src/components/test-case/test-case-form.tsx:159-167 | on the default steps, the added step gets id 3 |
| TestCaseForm.RemoveStep | client/src/components/test-case/test-case-form.tsx:169-172 | every step with the id is gone, every other step is kept as often as it occurred, in order |
| TestCaseForm.RemoveStepKeepsDistinct | client/src/components/test-case/test-case-form.tsx:169-172 | removing keeps the step ids distinct |
| TestCaseForm.DistinctFilter | client/src/components/test-case/test-case-form.tsx:171 | filtering keeps the step ids distinct |
| TestCaseForm.RemoveDropsAtMostOne | client/src/components/test-case/test-case-form.tsx:441 | with distinct ids, a removal drops at most one step, so the enabled remove button never empties the list |
| TestCaseForm.RemoveDuplicateIdsEmpties | client/src/components/test-case/test-case-form.tsx:441 | with a repeated id, the enabled remove button can empty the list |
| TestCaseForm.SplitTags | client/src/components/test-case/test-case-form.tsx:125 | empty or absent text gives no tags; otherwise the i-th tag is the trimmed i-th comma-separated piece, one per comma plus one, each comma-free |
| TestCaseForm.TrimAll | client/src/components/test-case/test-case-form.tsx:125 | each piece trimmed, in place |
| TestCaseForm.TrimPadded | client/src/components/test-case/test-case-form.tsx:125 | trimming a trimmed tag, with or without the space of ", ", gives the tag |
| TestCaseForm.JoinTagsSpaced | client/src/components/test-case/test-case-form.tsx:81 | joining with ", " is joining the spaced parts with "," |
| TestCaseForm.TagsRoundTrip | client/src/components/test-case/test-case-form.tsx:81-125 | stored tags shown in the edit form are sent back unchanged, when they are trimmed and comma-free and not the single empty tag |
| TestCaseForm.SplitJoinedTags | client/src/components/test-case/test-case-form.tsx:81-125 | splitting the ", "-joined tags at "," gives the spaced parts |
| TestCaseForm.JoinTagsNonEmpty | client/src/components/test-case/test-case-form.tsx:81-125 | the join of tags is non-empty unless the tags are none or one empty tag |
| TestCaseForm.SpacedCommaFree | client/src/components/test-case/test-case-form.tsx:81 | comma-free tags give comma-free parts |
| TestCaseForm.TrimSpaced | client/src/components/test-case/test-case-form.tsx:125 | trimming the spaced parts of trimmed tags gives the tags |
| TestCaseForm.MutationBody | client/src/components/test-case/test-case-form.tsx:119-126 | the form's columns, the page's project and the split tags; no `test_id` and no creator |
| TestCaseForm.FormBodyAccepted | client/src/components/test-case/test-case-form.tsx:119-126 | once the handler adds the test id, project and requester, the body always parses and keeps the form's columns |
| TestCaseForm.FormBodyLacksServerColumns | client/src/components/test-case/test-case-form.tsx:119-126 | on its own, the body is rejected for exactly the missing `test_id` and `created_by` |
| TestExecutionPage.ResultForStatus | client/src/pages/test-execution-page.tsx:141 | "Test failed" iff "Failed", "Test passed" iff "Passed", "" for any other status |
| TestExecutionPage.StatusChange | client/src/pages/test-execution-page.tsx:96-104 | a PATCH body with the status and its result, and no other column |
| TestExecutionPage.StatusChangeStored | client/src/pages/test-execution-page.tsx:137-143 | for the page's own status changes, the as-written and corrected updates store the same item: new status and result, same links, stamped |
| TestExecutionPage.StatusIcon | client/src/pages/test-execution-page.tsx:145-157 | check for "Passed", cross for "Failed", alert for "Blocked", the clock for anything else |
| TestExecutionPage.StatusBadgeClass | client/src/pages/test-execution-page.tsx:159-173 | a known status gets its own class from the table; an unknown status gets the "Not Run" class |
| TestExecutionPage.BadgeMatchesIcon | client/src/pages/test-execution-page.tsx:145-173 | a status is drawn gray iff it is drawn with the clock |
| TestExecutionPage.CreateExecutionBody | client/src/pages/test-execution-page.tsx:69-76 | `test_case_ids` is the page's selection whatever the form held; status defaults to "Not Started" |
| TestExecutionPage.SubmittedExecutionAccepted | client/src/pages/test-execution-page.tsx:25-30 | a valid form submitted with a non-empty selection parses once the handler fills in project and requester, and fans out over the selection |
| TestExecutionPage.DefaultsNeedName | client/src/pages/test-execution-page.tsx:39-47 | the untouched form is refused, and its status is "Not Started" |
| FolderTree.BuildFolderTree | client/src/components/test-case/folder-tree.tsx:92-98 | exactly the folders with that parent whose name matches the query case-insensitively, in input order |
| FolderTree.BuildFolderTreeCounts | client/src/components/test-case/folder-tree.tsx:92-98 | each listed folder appears as often as in the input, every other folder not at all |
| FolderTree.EmptyQueryListsAllChildren | client/src/components/test-case/folder-tree.tsx:92-98 | with an empty query, every child of the parent, in order |
| FolderTree.FoundByOwnName | client/src/components/test-case/folder-tree.tsx:92-98 | a folder is listed under its parent when searched by its own name |
| FolderTree.Rows | client/src/components/test-case/folder-tree.tsx:102-158 | each row is a listed folder at its level, or a deeper folder whose parent is expanded; with matching folders, every row matches |
| FolderTree.RowsPlaced | client/src/components/test-case/folder-tree.tsx:104-106 | a folder's row, its children's rows and its siblings' rows are all placed under the list |
| FolderTree.TreeShape | client/src/components/test-case/folder-tree.tsx:100-106 | every level-0 row is a root folder (null parent); deeper rows have an expanded parent; all rows match the query |
| FolderTree.RowsShowList | client/src/components/test-case/folder-tree.tsx:102-110 | every folder of the list gets a row at the list's level |
| FolderTree.RowsShowChildren | client/src/components/test-case/folder-tree.tsx:150-154 | the listed children of an expanded folder get rows one level deeper, within the depth bound |
| FolderTree.TreeComplete | client/src/components/test-case/folder-tree.tsx:100-106 | every matching root folder has a level-0 row, and the matching children of an expanded matching root have level-1 rows |
| FolderTree.SearchHidesNestedMatch | client/src/components/test-case/folder-tree.tsx:92-106 | a matching folder inside a non-matching one is not shown, even when its parent is expanded |
| FolderTree.FolderRequest | client/src/components/test-case/folder-tree.tsx:67-72 | the request's parent is the folder the dialog was opened on, whatever the form held |
| FolderTree.FolderRequestAccepted | client/src/components/test-case/folder-tree.tsx:67-72 | once the handler fills in project and requester, a valid folder form parses, with that parent |
| TestCaseList.Ids | client/src/components/test-case/test-case-list.tsx:34 | the listed ids, one per test case, in list order |
| TestCaseList.ToggleSelectAll | client/src/components/test-case/test-case-list.tsx:30-36 | as written: clears when the lengths are equal, otherwise selects every listed id |
| TestCaseList.ToggleSelectAllIntended | client/src/components/test-case/test-case-list.tsx:30-36 | clears iff every listed test case is selected; otherwise selects them all, in list order |
| TestCaseList.StaleSelectionLooksComplete | client/src/components/test-case/test-case-list.tsx:30-36 | a selection of the same length with none of the listed ids checks the header, and select-all clears it |
| TestCaseList.HeaderAgrees | client/src/components/test-case/test-case-list.tsx:80 | for a selection made on the list, the length test agrees with "all selected", in both directions, and select-all behaves as intended |
| TestCaseList.Cardinality | client/src/components/test-case/test-case-list.tsx:80 | a list without repeats has as many distinct elements as its length |
| TestCaseList.SelectionKept | client/src/components/test-case/test-case-list.tsx:22-36 | toggling a listed id and select-all both leave a repeat-free selection of listed ids |
| TestCaseList.NoDuplicatesFilter | client/src/components/test-case/test-case-list.tsx:25 | filtering keeps a list free of repeats |
| TestCaseList.PriorityBadgeClass | client/src/components/test-case/test-case-list.tsx:42-54 | a known priority gets its own class from the table; an unknown priority gets the "Medium" class |
| TestCaseList.StatusBadgeClass | client/src/components/test-case/test-case-list.tsx:56-70 | a known status gets its own class from the table; an unknown status gets the "Not Run" class |
| TestCaseList.PriorityBadgesDistinct | client/src/components/test-case/test-case-list.tsx:42-54 | a priority looks like "Medium" iff it is neither "High" nor "Low" |
| TestCaseList.StatusBadgesDistinct | client/src/components/test-case/test-case-list.tsx:56-70 | a status looks like "Not Run" iff it is none of the other four |
| TestCasesPage.FilterTestCases | client/src/pages/test-cases-page.tsx:48-53 | exactly the test cases whose lowercased name or test id contains the lowercased query, each as often as in the input, as a subsequence; everything for an empty query |
| TestCasesPage.FilterIdempotent | client/src/pages/test-cases-page.tsx:48-53 | searching the results again for the same query changes nothing |
| TestCasesPage.FoundByTestId | client/src/pages/test-cases-page.tsx:50-51 | searching for a test case's own test id, in either case, finds it |
| TestCasesPage.LowerTwice | client/src/pages/test-cases-page.tsx:50-51 | lowercasing twice is lowercasing once |
| TestCasesPage.CasesSource | client/src/pages/test-cases-page.tsx:31-38 | the folder endpoint iff a (non-zero) folder is selected, with that folder; the project endpoint otherwise |

## Left out

- HTTP and Express plumbing are not modelled. Outcomes are a datatype (`Routes.Outcome`).
  - Path ids are integers. A `parseInt` that yields `NaN` behaves like an id that is not stored.
- Sessions, login and password hashing are not modelled. The authenticated user is an `Option<int>` parameter.
  - `CreateUser` and `GetUserByUsername` are modelled as store operations only.
- `new Date()` is a `now` parameter. The session store's `MemoryStore` is left out.
- zod and drizzle are modelled only by what the insert schemas do: keep the whitelisted columns and refuse a missing required column.
  - Type checks on column values are not modelled. The 400 body lists the missing column names, not zod's error objects.
  - A column that is sent as `null` and one that is left absent are the same `None`.
- Request-body keys outside an insert whitelist are dropped when parsed, as zod does. For the PATCH body, only the item's own columns are modelled.
- Every `await` runs to completion before the next request is handled. Interleaved requests are not modelled, and neither is the race between counting test cases and storing the new one.
- The `test_case_ids` of a new execution are stored as sent. The source does not check them against the project's test cases, and neither does the model.
- TestCaseForm.EditDefaults: steps stored as a JSON string are not parsed; stored steps are taken as a list.
- Text.ToLower lowercases ASCII letters only, not all of Unicode.
- Badge lookups by a key such as "constructor", which an object literal inherits, are not modelled. Every unknown key falls back.
- FolderTree.Rows takes a `fuel` bound on its depth. `FolderTree.Tree` passes the number of folders, which is enough for any parent chain without a cycle. A cyclic chain of parents, which the source would recurse on forever, is cut off there.
- JSX rendering, react-query caching, toasts and dialogs are not modelled.
  - Neither are the per-folder test-case counts, which come from `Math.random`.
- The reports and dashboard pages, the OpenAI service and the Selenium tests are not modelled.
- CSV import and export are not modelled: the code has no implementation of them.
- Routes.PatchTestExecutionItem applies the corrected update `StatusPatch`, not the spread of the whole body. The spread as written is `Routes.AsWrittenPatch`; see Findings.
- Routes.Good holds only under that corrected update. Under the spread as written, an item can be pointed at an execution of another workspace, or at the id the next execution will get.
  - Routes.CreateTestExecution: its promise that the new execution lists exactly its own fan-out would then fail, because the repointed old item is listed too.
  - The guarantees that handlers never answer 500 on a `Good` store hold only under the corrected update as well.
- FolderTree.Tree treats a folder as a root when its parent is `None`. The source compares `parent_id === null`. A folder created without a `parent_id` key is stored without the key, so the source never shows it as a root, while the model does.
- Storage.MemStorage.UpdateTestExecutionItem: a thrown error on an absent id is the result `None`.

## Findings

| source | as written | input that shows it | evidently intended | confidence | as-written member | corrected member |
|---|---|---|---|---|---|---|
| server/routes.ts:435-439 | the item PATCH spreads the whole request body over the stored item, so `id`, `execution_id` and `test_case_id` can be rewritten | an item of execution 1, updated by a member of its workspace with body `{ "execution_id": 2, "status": "Passed" }`, moves to execution 2 of another workspace, or to a missing one after which every request about the item fails with 500; with body `{ "execution_id": 3 }` while the next execution id is 3, the next created execution lists this old item besides its own fan-out | only status, result and comments (and the stamps) are updated; the item's identity and links stay | not executed | Routes.AsWrittenPatchMovesItem | Routes.StatusPatchKeepsLinks |
| client/src/components/test-case/test-case-list.tsx:30-36 | select-all and the header checkbox compare the selection's length with the list's; the selection survives a change of the listed cases (the list is reused across searches) | with cases 1 and 2 listed and a stale selection [5, 6], the header shows all selected and select-all clears instead of selecting | clear exactly when every listed case is selected | not executed | TestCaseList.StaleSelectionLooksComplete | TestCaseList.ToggleSelectAllIntended |
