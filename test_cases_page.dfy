/**
 * The test-case repository page: the search box over the loaded test cases
 * and the choice of the endpoint they are loaded from.
 */
module TestCasesPage {
  import opened Common
  import opened Text
  import opened Schema

  /** The search test: an empty query keeps everything, otherwise a case-insensitive match on name or test id. */
  predicate SearchMatches(query: string, tc: TestCase)
  {
    query == [] || Includes(ToLower(tc.name), ToLower(query)) || Includes(ToLower(tc.testId), ToLower(query))
  }

  /**
   * The search filter: exactly the test cases matching the query, in list
   * order, and nothing is lost for an empty query.
   */
  function FilterTestCases(testCases: seq<TestCase>, query: string): (r: seq<TestCase>)
    ensures forall i :: 0 <= i < |r| ==> r[i] in testCases && SearchMatches(query, r[i])
    ensures forall i :: 0 <= i < |testCases| && SearchMatches(query, testCases[i]) ==> testCases[i] in r
    ensures IsSubsequence(r, testCases)
    ensures forall tc :: multiset(r)[tc] == if SearchMatches(query, tc) then multiset(testCases)[tc] else 0
    ensures query == [] ==> r == testCases
  {
    FilterIsSubsequence(testCases, tc => SearchMatches(query, tc));
    var r := Filter(testCases, tc => SearchMatches(query, tc));
    forall tc ensures multiset(r)[tc] == if SearchMatches(query, tc) then multiset(testCases)[tc] else 0 {
      FilterCount(testCases, tc => SearchMatches(query, tc), tc);
    }
    assert query == [] ==> r == testCases by {
      if query == [] {
        FilterKeepsAll(testCases, tc => SearchMatches(query, tc));
      }
    }
    r
  }

  /** Searching twice for the same query changes nothing more. */
  lemma FilterIdempotent(testCases: seq<TestCase>, query: string)
    ensures FilterTestCases(FilterTestCases(testCases, query), query) == FilterTestCases(testCases, query)
  {
    var r := FilterTestCases(testCases, query);
    FilterKeepsAll(r, tc => SearchMatches(query, tc));
  }

  /** Searching for a test case's own test id (in any letter case) finds it. */
  lemma FoundByTestId(testCases: seq<TestCase>, i: int)
    requires 0 <= i < |testCases|
    ensures testCases[i] in FilterTestCases(testCases, testCases[i].testId)
    ensures testCases[i] in FilterTestCases(testCases, ToLower(testCases[i].testId))
  {
    var id := ToLower(testCases[i].testId);
    assert OccursAt(id, id, 0);
    LowerTwice(testCases[i].testId);
  }

  /** Lowercasing is idempotent. */
  lemma {:induction false} LowerTwice(s: string)
    ensures ToLower(ToLower(s)) == ToLower(s)
  {
    if s != [] {
      LowerTwice(s[1..]);
      assert ToLower(s)[1..] == ToLower(s[1..]);
    }
  }

  /** Where the page loads its test cases from. */
  datatype Source = FolderCases(folderId: int) | ProjectCases

  /** A selected folder (a truthy id, so not 0) selects the folder's listing, otherwise the project's. */
  function CasesSource(activeFolder: Option<int>): (s: Source)
    ensures s.FolderCases? <==> activeFolder.Some? && activeFolder.value != 0
    ensures s.FolderCases? ==> s.folderId == activeFolder.value
  {
    if activeFolder.Some? && activeFolder.value != 0 then FolderCases(activeFolder.value) else ProjectCases
  }
}
