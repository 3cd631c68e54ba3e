/**
 * The test-case table: row selection (one row toggles with `Common.Toggle`),
 * the select-all header checkbox, and the priority and status badges.
 */
module TestCaseList {
  import opened Common
  import opened Schema

  /** The ids of the listed test cases, in list order. */
  function Ids(testCases: seq<TestCase>): (r: seq<int>)
    ensures |r| == |testCases|
    ensures forall i :: 0 <= i < |r| ==> r[i] == testCases[i].id
  {
    seq(|testCases|, i requires 0 <= i < |testCases| => testCases[i].id)
  }

  predicate NoDuplicates(s: seq<int>)
  {
    forall i, j :: 0 <= i < j < |s| ==> s[i] != s[j]
  }

  /** A selection made on this list: no id twice, and only ids of listed test cases. */
  predicate SelectionOf(selection: seq<int>, testCases: seq<TestCase>)
  {
    NoDuplicates(selection) && forall x :: x in selection ==> x in Ids(testCases)
  }

  /** The header checkbox as written: the selection is as long as the list, and the list is not empty. */
  predicate HeaderChecked(selection: seq<int>, testCases: seq<TestCase>)
  {
    |selection| == |testCases| && |testCases| > 0
  }

  /** What the header checkbox stands for: every listed test case is selected. */
  predicate AllSelected(selection: seq<int>, testCases: seq<TestCase>)
  {
    |testCases| > 0 && forall i :: 0 <= i < |testCases| ==> testCases[i].id in selection
  }

  /** Select-all as written: a selection as long as the list is cleared, any other is replaced by every listed id. */
  function ToggleSelectAll(selection: seq<int>, testCases: seq<TestCase>): (r: seq<int>)
    ensures |selection| == |testCases| ==> r == []
    ensures |selection| != |testCases| ==> r == Ids(testCases)
  {
    if |selection| == |testCases| then [] else Ids(testCases)
  }

  /**
   * Select-all as intended: it clears the selection exactly when every listed
   * test case is already selected, and otherwise selects them all.
   */
  function ToggleSelectAllIntended(selection: seq<int>, testCases: seq<TestCase>): (r: seq<int>)
    ensures r == [] <==> AllSelected(selection, testCases) || testCases == []
    ensures r != [] ==> AllSelected(r, testCases) && IsSubsequence(r, Ids(testCases))
  {
    if AllSelected(selection, testCases) then []
    else
      SubsequenceReflexive(Ids(testCases));
      Ids(testCases)
  }

  /**
   * A selection kept over a list whose contents changed (a search narrowed it)
   * can be as long as the list without holding any of its ids: the header
   * shows everything selected and select-all clears instead of selecting.
   */
  lemma StaleSelectionLooksComplete()
    ensures var list := [Case(1), Case(2)];
            var selection := [5, 6];
            && HeaderChecked(selection, list) && !AllSelected(selection, list)
            && ToggleSelectAll(selection, list) == []
            && ToggleSelectAllIntended(selection, list) == [1, 2]
  {
    var list := [Case(1), Case(2)];
    assert list[0].id !in [5, 6];
    assert Ids(list) == [1, 2];
  }

  /** A stored-looking test case with the given id, for the lemma above. */
  function Case(id: int): (tc: TestCase)
    ensures tc.id == id
  {
    TestCase(id, "TC-0001", "Login", None, "High", "Draft", "Functional", None, 1, 1, [], None, 1, 0, 0)
  }

  /** Listed test cases have distinct ids (they are stored records). */
  predicate DistinctCases(testCases: seq<TestCase>)
  {
    forall i, j :: 0 <= i < j < |testCases| ==> testCases[i].id != testCases[j].id
  }

  /**
   * For a selection made on the list itself, comparing lengths decides the
   * same as checking every id, so the code as written behaves as intended.
   */
  lemma HeaderAgrees(selection: seq<int>, testCases: seq<TestCase>)
    requires SelectionOf(selection, testCases) && DistinctCases(testCases)
    ensures HeaderChecked(selection, testCases) <==> AllSelected(selection, testCases)
    ensures ToggleSelectAll(selection, testCases) == ToggleSelectAllIntended(selection, testCases)
  {
    var ids := Ids(testCases);
    var sel := set x | x in selection;
    var all := set x | x in ids;
    Cardinality(selection);
    Cardinality(ids);
    assert sel <= all;
    assert all == sel + (all - sel);
    assert sel * (all - sel) == {};
    if AllSelected(selection, testCases) {
      forall x | x in all ensures x in sel {
        var i :| 0 <= i < |ids| && ids[i] == x;
      }
      assert all - sel == {};
    }
    if HeaderChecked(selection, testCases) {
      assert |all - sel| == 0;
      forall i | 0 <= i < |testCases| ensures testCases[i].id in selection {
        assert ids[i] in all;
      }
    }
  }

  /** A sequence without repeats has as many distinct elements as it is long. */
  lemma {:induction false} Cardinality(s: seq<int>)
    requires NoDuplicates(s)
    ensures |set x | x in s| == |s|
  {
    if s != [] {
      Cardinality(s[1..]);
      var rest := set x | x in s[1..];
      assert s[0] !in rest;
      assert (set x | x in s) == {s[0]} + rest;
    }
  }

  /** Toggling a listed id and select-all both leave a selection made on the list. */
  lemma SelectionKept(selection: seq<int>, testCases: seq<TestCase>, id: int)
    requires SelectionOf(selection, testCases) && DistinctCases(testCases) && id in Ids(testCases)
    ensures SelectionOf(Toggle(selection, id), testCases)
    ensures SelectionOf(ToggleSelectAll(selection, testCases), testCases)
  {
    var r := Toggle(selection, id);
    if id in selection {
      NoDuplicatesFilter(selection, x => x != id);
    }
    var ids := Ids(testCases);
    assert NoDuplicates(ids) by {
      forall i, j | 0 <= i < j < |ids| ensures ids[i] != ids[j] {
        assert testCases[i].id != testCases[j].id;
      }
    }
  }

  lemma {:induction false} NoDuplicatesFilter(s: seq<int>, p: int -> bool)
    requires NoDuplicates(s)
    ensures NoDuplicates(Filter(s, p))
  {
    if s != [] {
      NoDuplicatesFilter(s[1..], p);
      assert s[0] !in s[1..];
    }
  }

  const PriorityClasses: map<string, string> := map[
    "High" := "bg-red-100 text-red-800",
    "Medium" := "bg-yellow-100 text-yellow-800",
    "Low" := "bg-green-100 text-green-800"]

  /** The priority badge colour; an unknown priority is drawn as "Medium". */
  function PriorityBadgeClass(priority: string): (c: string)
    ensures c in PriorityClasses.Values
    ensures priority in PriorityClasses ==> c == PriorityClasses[priority]
    ensures priority !in PriorityClasses ==> c == PriorityClasses["Medium"]
  {
    LookupOr(PriorityClasses, priority, "Medium")
  }

  const StatusClasses: map<string, string> := map[
    "Passed" := "bg-green-100 text-green-800",
    "Failed" := "bg-red-100 text-red-800",
    "Blocked" := "bg-yellow-100 text-yellow-800",
    "Not Run" := "bg-gray-100 text-gray-800",
    "Draft" := "bg-blue-100 text-blue-800"]

  /** The status badge colour; an unknown status is drawn as "Not Run". */
  function StatusBadgeClass(status: string): (c: string)
    ensures c in StatusClasses.Values
    ensures status in StatusClasses ==> c == StatusClasses[status]
    ensures status !in StatusClasses ==> c == StatusClasses["Not Run"]
  {
    LookupOr(StatusClasses, status, "Not Run")
  }

  /** The known priorities get three different colours, so only unknown ones look like "Medium". */
  lemma PriorityBadgesDistinct(priority: string)
    ensures PriorityBadgeClass(priority) == PriorityBadgeClass("Medium") <==> priority != "High" && priority != "Low"
  {
  }

  /** The known statuses get five different colours, so only unknown ones look like "Not Run". */
  lemma StatusBadgesDistinct(status: string)
    ensures StatusBadgeClass(status) == StatusBadgeClass("Not Run")
            <==> status != "Passed" && status != "Failed" && status != "Blocked" && status != "Draft"
  {
  }
}
