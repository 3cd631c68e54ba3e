/**
 * The folder tree: which folders are listed under a parent for a search
 * query, which rows the tree shows for a set of expanded folders (expanding
 * is `Common.Toggle` on the expanded ids), and the folder-creation request.
 */
module FolderTree {
  import opened Common
  import opened Text
  import opened Schema

  /** The search test: an empty query matches every name, otherwise a case-insensitive substring test. */
  predicate NameMatches(query: string, name: string)
  {
    query == [] || Includes(ToLower(name), ToLower(query))
  }

  predicate IsChildOf(parent: Option<int>, f: Folder)
  {
    f.parentId == parent
  }

  predicate FolderMatches(query: string, f: Folder)
  {
    NameMatches(query, f.name)
  }

  predicate Listed(parent: Option<int>, query: string, f: Folder)
  {
    IsChildOf(parent, f) && NameMatches(query, f.name)
  }

  /**
   * The folders listed under `parent` (None: the root folders), in input
   * order: exactly those with that parent whose name matches the query.
   */
  function BuildFolderTree(folders: seq<Folder>, parent: Option<int>, query: string): (r: seq<Folder>)
    ensures forall i :: 0 <= i < |r| ==> r[i] in folders && r[i].parentId == parent && NameMatches(query, r[i].name)
    ensures forall i :: 0 <= i < |folders| && Listed(parent, query, folders[i]) ==> folders[i] in r
    ensures IsSubsequence(r, folders)
  {
    var r := Filter(Filter(folders, f => IsChildOf(parent, f)), f => FolderMatches(query, f));
    FilterFilter(folders, f => IsChildOf(parent, f), f => FolderMatches(query, f), f => Listed(parent, query, f));
    FilterIsSubsequence(folders, f => Listed(parent, query, f));
    r
  }

  /** A listed folder appears under its parent as often as in the input, and an unlisted one not at all. */
  lemma BuildFolderTreeCounts(folders: seq<Folder>, parent: Option<int>, query: string)
    ensures forall f :: multiset(BuildFolderTree(folders, parent, query))[f]
                        == if Listed(parent, query, f) then multiset(folders)[f] else 0
  {
    FilterFilter(folders, f => IsChildOf(parent, f), f => FolderMatches(query, f), f => Listed(parent, query, f));
    forall f ensures multiset(BuildFolderTree(folders, parent, query))[f]
                     == if Listed(parent, query, f) then multiset(folders)[f] else 0 {
      FilterCount(folders, f => Listed(parent, query, f), f);
    }
  }

  /** With an empty query nothing is filtered by name: the children of `parent`, all of them, in order. */
  lemma EmptyQueryListsAllChildren(folders: seq<Folder>, parent: Option<int>)
    ensures BuildFolderTree(folders, parent, "") == Filter(folders, f => IsChildOf(parent, f))
  {
    var children := Filter(folders, f => IsChildOf(parent, f));
    FilterKeepsAll(children, f => FolderMatches("", f));
  }

  /** A folder is found under its parent by searching for its own name. */
  lemma FoundByOwnName(folders: seq<Folder>, i: int)
    requires 0 <= i < |folders|
    ensures folders[i] in BuildFolderTree(folders, folders[i].parentId, folders[i].name)
  {
    var name := ToLower(folders[i].name);
    assert OccursAt(name, name, 0);
  }

  /** One rendered line of the tree: a folder and its indentation level. */
  datatype Row = Row(folder: Folder, level: nat)

  /** A row of the rows for `list` at `level`: one of `list` there, or a deeper folder whose parent is expanded. */
  predicate Placed(folders: seq<Folder>, list: seq<Folder>, expanded: seq<int>, level: nat, row: Row)
  {
    || (row.level == level && row.folder in list)
    || (row.level > level && row.folder in folders && row.folder.parentId.Some? && row.folder.parentId.value in expanded)
  }

  predicate AllMatch(query: string, list: seq<Folder>)
  {
    forall f :: f in list ==> NameMatches(query, f.name)
  }

  /**
   * The rows the tree renders for `list` at `level`: each folder, then, when
   * it is expanded and has listed children, their rows one level deeper.
   * Every row is placed as Placed says; when the folders of `list` match the
   * query, so do all rows. `fuel` bounds the depth.
   */
  function Rows(folders: seq<Folder>, list: seq<Folder>, expanded: seq<int>, query: string, level: nat, fuel: nat)
    : (rows: seq<Row>)
    ensures forall row :: row in rows ==> Placed(folders, list, expanded, level, row)
    ensures AllMatch(query, list) ==> forall row :: row in rows ==> NameMatches(query, row.folder.name)
    decreases fuel, |list|
  {
    if list == [] || fuel == 0 then []
    else
      var f := list[0];
      var children := BuildFolderTree(folders, Some(f.id), query);
      var below := if f.id in expanded && |children| > 0 then Rows(folders, children, expanded, query, level + 1, fuel - 1) else [];
      var rest := Rows(folders, list[1..], expanded, query, level, fuel);
      assert forall row :: row in below ==> Placed(folders, list, expanded, level, row) by {
        forall row | row in below ensures Placed(folders, list, expanded, level, row) {
          assert Placed(folders, children, expanded, level + 1, row);
        }
      }
      assert AllMatch(query, children);
      RowsPlaced(folders, list, expanded, level, below, rest);
      [Row(f, level)] + below + rest
  }

  /** The first folder's row, then rows placed for `list`, then rows placed for the rest of it, are all placed for `list`. */
  lemma RowsPlaced(folders: seq<Folder>, list: seq<Folder>, expanded: seq<int>, level: nat, below: seq<Row>, rest: seq<Row>)
    requires list != []
    requires forall row :: row in below ==> Placed(folders, list, expanded, level, row)
    requires forall row :: row in rest ==> Placed(folders, list[1..], expanded, level, row)
    ensures forall row :: row in [Row(list[0], level)] + below + rest ==> Placed(folders, list, expanded, level, row)
  {
    forall row | row in rest ensures Placed(folders, list, expanded, level, row) {
      assert Placed(folders, list[1..], expanded, level, row);
    }
  }

  /** Every folder of `list` gets its own row at `level`. */
  lemma {:induction false} RowsShowList(folders: seq<Folder>, list: seq<Folder>, expanded: seq<int>, query: string,
                                        level: nat, fuel: nat)
    requires fuel > 0
    ensures forall f :: f in list ==> Row(f, level) in Rows(folders, list, expanded, query, level, fuel)
    decreases |list|
  {
    if list != [] {
      RowsShowList(folders, list[1..], expanded, query, level, fuel);
      assert forall f :: f in list ==> f == list[0] || f in list[1..];
    }
  }

  /**
   * The listed children of an expanded folder of `list` get rows one level
   * deeper, as long as the depth bound allows that level.
   */
  lemma {:induction false} RowsShowChildren(folders: seq<Folder>, list: seq<Folder>, expanded: seq<int>, query: string,
                                            level: nat, fuel: nat)
    requires fuel > 1
    ensures forall f, c :: f in list && f.id in expanded && c in BuildFolderTree(folders, Some(f.id), query)
                           ==> Row(c, level + 1) in Rows(folders, list, expanded, query, level, fuel)
    decreases |list|
  {
    if list != [] {
      RowsShowChildren(folders, list[1..], expanded, query, level, fuel);
      var f := list[0];
      var children := BuildFolderTree(folders, Some(f.id), query);
      if f.id in expanded && |children| > 0 {
        RowsShowList(folders, children, expanded, query, level + 1, fuel - 1);
      }
      assert forall g :: g in list ==> g == list[0] || g in list[1..];
    }
  }

  /** The whole tree: the root folders at level 0, with at most one level per folder. */
  function Tree(folders: seq<Folder>, expanded: seq<int>, query: string): seq<Row>
  {
    Rows(folders, BuildFolderTree(folders, None, query), expanded, query, 0, |folders|)
  }

  /**
   * What the tree shows: level-0 rows are root folders, deeper rows have an
   * expanded parent, and every row's name matches the query.
   */
  lemma TreeShape(folders: seq<Folder>, expanded: seq<int>, query: string)
    ensures forall row :: row in Tree(folders, expanded, query) ==>
              && NameMatches(query, row.folder.name)
              && row.folder in folders
              && (row.level == 0 <==> row.folder.parentId.None?)
              && (row.level > 0 ==> row.folder.parentId.value in expanded)
  {
    var roots := BuildFolderTree(folders, None, query);
    var rows := Rows(folders, roots, expanded, query, 0, |folders|);
    assert AllMatch(query, roots);
    forall row | row in rows
      ensures row.folder in folders && (row.level == 0 <==> row.folder.parentId.None?)
    {
      assert Placed(folders, roots, expanded, 0, row);
    }
  }

  /**
   * What the tree does show: every root folder whose name matches the query
   * has a level-0 row, and the matching children of an expanded root have
   * level-1 rows.
   */
  lemma TreeComplete(folders: seq<Folder>, expanded: seq<int>, query: string)
    ensures forall f :: f in folders && f.parentId.None? && NameMatches(query, f.name)
                        ==> Row(f, 0) in Tree(folders, expanded, query)
    ensures forall f, c :: f in folders && f.parentId.None? && NameMatches(query, f.name) && f.id in expanded
                           && c in BuildFolderTree(folders, Some(f.id), query)
                           ==> Row(c, 1) in Tree(folders, expanded, query)
  {
    var roots := BuildFolderTree(folders, None, query);
    assert forall f :: f in folders && f.parentId.None? && NameMatches(query, f.name) ==> f in roots by {
      forall f | f in folders && f.parentId.None? && NameMatches(query, f.name) ensures f in roots {
        var i :| 0 <= i < |folders| && folders[i] == f;
        assert Listed(None, query, folders[i]);
      }
    }
    if |folders| > 0 {
      RowsShowList(folders, roots, expanded, query, 0, |folders|);
    }
    forall f, c | f in folders && f.parentId.None? && NameMatches(query, f.name) && f.id in expanded
                  && c in BuildFolderTree(folders, Some(f.id), query)
      ensures Row(c, 1) in Tree(folders, expanded, query)
    {
      var children := BuildFolderTree(folders, Some(f.id), query);
      var j :| 0 <= j < |children| && children[j] == c;
      TwoMembers(folders, f, c);
      RowsShowChildren(folders, roots, expanded, query, 0, |folders|);
    }
  }

  /** A root and one of its children are two distinct folders, so there are at least two. */
  lemma TwoMembers(s: seq<Folder>, x: Folder, y: Folder)
    requires x in s && y in s && x != y
    ensures |s| > 1
  {
    var i :| 0 <= i < |s| && s[i] == x;
    var j :| 0 <= j < |s| && s[j] == y;
    assert i != j;
  }

  /**
   * The search does not look below a folder whose own name does not match:
   * "Smoke" inside "Login" is not shown for the query "smoke", even with
   * "Login" expanded.
   */
  lemma SearchHidesNestedMatch()
    ensures var login := Folder(1, "Login", 1, None, 1, 0);
            var smoke := Folder(2, "Smoke", 1, Some(1), 1, 0);
            NameMatches("smoke", smoke.name) && Tree([login, smoke], [1], "smoke") == []
  {
    SmokeMatches();
    LoginHidden();
  }

  lemma SmokeMatches()
    ensures NameMatches("smoke", "Smoke")
  {
    assert ToLower("Smoke") == "smoke";
    assert OccursAt("smoke", "smoke", 0);
  }

  lemma LoginHidden()
    ensures BuildFolderTree([Folder(1, "Login", 1, None, 1, 0), Folder(2, "Smoke", 1, Some(1), 1, 0)], None, "smoke") == []
  {
    LoginMisses();
  }

  lemma LoginMisses()
    ensures !NameMatches("smoke", "Login")
  {
    assert ToLower("Login") == "login";
    assert ToLower("smoke") == "smoke";
    assert !Includes("login", "smoke");
  }

  /** The folder form: a name, and a parent the request ignores. */
  datatype FolderForm = FolderForm(name: string, parentId: Option<int>)

  predicate ValidFolderForm(f: FolderForm)
  {
    f.name != []
  }

  /** The creation request: the form with its parent replaced by the folder the dialog was opened on. */
  function FolderRequest(f: FolderForm, parentFolderId: Option<int>): (b: FolderBody)
    ensures b.name == Some(f.name) && b.parentId == parentFolderId
    ensures b.projectId.None? && b.createdBy.None?
  {
    FolderBody(Some(f.name), None, parentFolderId, None)
  }

  /**
   * Once the handler fills in the path's project and the requester, the
   * request parses, and the new folder sits under the folder the dialog was
   * opened on, whatever parent the form held.
   */
  lemma FolderRequestAccepted(f: FolderForm, parentFolderId: Option<int>, projectId: int, userId: int)
    requires ValidFolderForm(f)
    ensures var parsed := ParseFolder(FolderRequest(f, parentFolderId).(projectId := Some(projectId), createdBy := Some(userId)));
            && parsed.Parsed? && parsed.value.name == f.name && parsed.value.name != []
            && parsed.value.parentId == parentFolderId
            && parsed.value.projectId == projectId && parsed.value.createdBy == userId
  {
  }
}
