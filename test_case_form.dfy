/**
 * The test-case form: its default values, its validation rules, the step-list
 * editing helpers and the request body it sends to the creation handler.
 */
module TestCaseForm {
  import opened Common
  import opened Text
  import opened Schema

  /** The form's values; `tags` is the free-text, comma-separated tag field. */
  datatype FormValues = FormValues(
    name: string, description: Option<string>, priority: string, status: string, testType: string,
    preconditions: Option<string>, folderId: int, steps: seq<Step>, tags: Option<string>)

  /** The form schema: required texts non-empty, a folder chosen, and every step filled in. */
  predicate ValidForm(f: FormValues)
  {
    && f.name != [] && f.priority != [] && f.status != [] && f.testType != []
    && f.folderId >= 1
    && forall i :: 0 <= i < |f.steps| ==> f.steps[i].action != [] && f.steps[i].expectedResult != []
  }

  /** No two steps share an id. */
  predicate DistinctIds(steps: seq<Step>)
  {
    forall i, j :: 0 <= i < j < |steps| ==> steps[i].id != steps[j].id
  }

  const DefaultSteps: seq<Step> := [Step(1, "", ""), Step(2, "", "")]

  /**
   * Defaults of a new test case. A missing (or zero) initial folder leaves
   * folder 0, which validation refuses; the empty name is refused as well.
   */
  function NewFormDefaults(initialFolderId: Option<int>): (f: FormValues)
    ensures f.priority == "Medium" && f.status == "Draft" && f.testType == "Functional"
    ensures f.steps == [Step(1, "", ""), Step(2, "", "")] && DistinctIds(f.steps)
    ensures f.tags == Some("") && f.name == []
    ensures initialFolderId.None? ==> f.folderId == 0
    ensures initialFolderId.Some? ==> f.folderId == initialFolderId.value
    ensures !ValidForm(f)
  {
    var folder := if initialFolderId.Some? then initialFolderId.value else 0;
    FormValues("", Some(""), "Medium", "Draft", "Functional", Some(""), folder, DefaultSteps, Some(""))
  }

  /** `s || ""` for a nullable text column. */
  function OrEmpty(s: Option<string>): (r: string)
    ensures s.Some? ==> r == s.value
    ensures s.None? ==> r == []
  {
    if s.Some? then s.value else ""
  }

  /** Array.prototype.join(", "). */
  function JoinTags(tags: seq<string>): string
  {
    if tags == [] then ""
    else if |tags| == 1 then tags[0]
    else tags[0] + ", " + JoinTags(tags[1..])
  }

  /** Defaults of the form opened on a stored test case. */
  function EditDefaults(tc: TestCase): (f: FormValues)
    ensures f.name == tc.name && f.priority == tc.priority && f.status == tc.status && f.testType == tc.testType
    ensures f.folderId == tc.folderId && f.steps == tc.steps
    ensures f.description == Some(OrEmpty(tc.description)) && f.preconditions == Some(OrEmpty(tc.preconditions))
    ensures tc.tags.None? ==> f.tags == Some("")
    ensures tc.tags.Some? ==> f.tags == Some(JoinTags(tc.tags.value))
  {
    var tags := if tc.tags.Some? then JoinTags(tc.tags.value) else "";
    FormValues(tc.name, Some(OrEmpty(tc.description)), tc.priority, tc.status, tc.testType,
               Some(OrEmpty(tc.preconditions)), tc.folderId, tc.steps, Some(tags))
  }

  /** Largest step id of a non-empty step list (Math.max over the ids). */
  function MaxId(steps: seq<Step>): (m: int)
    requires steps != []
    ensures exists i :: 0 <= i < |steps| && steps[i].id == m
    ensures forall i :: 0 <= i < |steps| ==> steps[i].id <= m
  {
    if |steps| == 1 then steps[0].id
    else
      var rest := MaxId(steps[1..]);
      assert forall i :: 1 <= i < |steps| ==> steps[i] == steps[1..][i - 1];
      if steps[0].id >= rest then steps[0].id else rest
  }

  /** The id the next added step receives: one past the largest id, or 1 for no steps. */
  function NextStepId(steps: seq<Step>): (id: int)
    ensures steps == [] ==> id == 1
    ensures steps != [] ==> id == MaxId(steps) + 1
    ensures forall i :: 0 <= i < |steps| ==> steps[i].id < id
  {
    if steps == [] then 1 else MaxId(steps) + 1
  }

  /**
   * Adding a step appends one empty step with a fresh id and leaves the
   * earlier steps as they were.
   */
  function AddStep(steps: seq<Step>): (r: seq<Step>)
    ensures |r| == |steps| + 1 && r[..|steps|] == steps
    ensures r[|steps|] == Step(NextStepId(steps), "", "")
    ensures forall i :: 0 <= i < |steps| ==> steps[i].id != r[|steps|].id
    ensures steps == [] ==> r == [Step(1, "", "")]
  {
    steps + [Step(NextStepId(steps), "", "")]
  }

  lemma AddStepKeepsDistinct(steps: seq<Step>)
    requires DistinctIds(steps)
    ensures DistinctIds(AddStep(steps))
  {
  }

  /** On the default steps (ids 1 and 2) the added step gets id 3. */
  lemma AddStepToDefaults()
    ensures AddStep(DefaultSteps) == DefaultSteps + [Step(3, "", "")]
  {
  }

  predicate HasOtherId(id: int, s: Step)
  {
    s.id != id
  }

  /**
   * Removing a step drops every step with that id and keeps the others in
   * order, each as often as it occurred.
   */
  function RemoveStep(steps: seq<Step>, id: int): (r: seq<Step>)
    ensures forall i :: 0 <= i < |r| ==> r[i].id != id && r[i] in steps
    ensures forall i :: 0 <= i < |steps| && steps[i].id != id ==> steps[i] in r
    ensures forall s :: multiset(r)[s] == if s.id == id then 0 else multiset(steps)[s]
    ensures IsSubsequence(r, steps)
  {
    FilterIsSubsequence(steps, s => HasOtherId(id, s));
    var r := Filter(steps, s => HasOtherId(id, s));
    forall s ensures multiset(r)[s] == if s.id == id then 0 else multiset(steps)[s] {
      FilterCount(steps, s => HasOtherId(id, s), s);
    }
    r
  }

  lemma RemoveStepKeepsDistinct(steps: seq<Step>, id: int)
    requires DistinctIds(steps)
    ensures DistinctIds(RemoveStep(steps, id))
  {
    DistinctFilter(steps, s => HasOtherId(id, s));
  }

  lemma {:induction false} DistinctFilter(steps: seq<Step>, p: Step -> bool)
    requires DistinctIds(steps)
    ensures DistinctIds(Filter(steps, p))
  {
    if steps != [] {
      DistinctFilter(steps[1..], p);
      var rest := Filter(steps[1..], p);
      forall s | s in rest ensures s.id != steps[0].id {
        var j :| 0 <= j < |steps[1..]| && steps[1..][j] == s;
        assert steps[j + 1] == s;
      }
    }
  }

  /** The remove button is disabled while the list holds at most one step. */
  predicate RemoveDisabled(steps: seq<Step>)
  {
    |steps| <= 1
  }

  /**
   * With distinct ids a removal drops at most one step, so an enabled remove
   * button never empties the list.
   */
  lemma {:induction false} RemoveDropsAtMostOne(steps: seq<Step>, id: int)
    requires DistinctIds(steps)
    ensures |RemoveStep(steps, id)| >= |steps| - 1
    ensures !RemoveDisabled(steps) ==> RemoveStep(steps, id) != []
  {
    if steps != [] {
      var p := (s: Step) => HasOtherId(id, s);
      if steps[0].id == id {
        assert forall i :: 0 <= i < |steps[1..]| ==> p(steps[1..][i]) by {
          forall i | 0 <= i < |steps[1..]| ensures p(steps[1..][i]) {
            assert steps[1..][i] == steps[i + 1];
          }
        }
        FilterKeepsAll(steps[1..], p);
      } else {
        RemoveDropsAtMostOne(steps[1..], id);
      }
    }
  }

  /** Without distinct ids an enabled remove button can empty the list. */
  lemma RemoveDuplicateIdsEmpties()
    ensures var steps := [Step(1, "a", "b"), Step(1, "c", "d")];
            !RemoveDisabled(steps) && RemoveStep(steps, 1) == []
  {
    var steps := [Step(1, "a", "b"), Step(1, "c", "d")];
    FilterNone(steps, s => HasOtherId(1, s));
  }

  /** The text `trim` leaves unchanged: empty, or no whitespace at either end. */
  predicate Trimmed(t: string)
  {
    t == [] || (!IsWhitespace(t[0]) && !IsWhitespace(t[|t| - 1]))
  }

  /** The tag field as sent: empty or absent gives no tags, otherwise the trimmed comma-separated pieces. */
  function SplitTags(tags: Option<string>): (r: seq<string>)
    ensures tags.None? || tags.value == [] ==> r == []
    ensures tags.Some? && tags.value != [] ==> |r| == Occurrences(tags.value, ',') + 1
    ensures tags.Some? && tags.value != [] ==> r == TrimAll(Split(tags.value, ','))
    ensures forall i :: 0 <= i < |r| ==> Trimmed(r[i]) && ',' !in r[i]
  {
    if tags.None? || tags.value == [] then [] else TrimAll(Split(tags.value, ','))
  }

  /** Each piece trimmed. */
  function TrimAll(pieces: seq<string>): (r: seq<string>)
    ensures |r| == |pieces|
    ensures forall i :: 0 <= i < |r| ==> r[i] == Trim(pieces[i])
    ensures forall i :: 0 <= i < |r| && ',' !in pieces[i] ==> ',' !in r[i]
  {
    var r := seq(|pieces|, i requires 0 <= i < |pieces| => Trim(pieces[i]));
    forall i | 0 <= i < |r| && ',' !in pieces[i] ensures ',' !in r[i] {
      var lead :| PaddedBy(pieces[i], r[i], lead);
    }
    r
  }

  lemma TrimPadded(t: string)
    requires Trimmed(t)
    ensures Trim(t) == t && Trim([' '] + t) == t
  {
    assert TrimStart(t) == t;
    assert ([' '] + t)[1..] == t;
    assert TrimStart([' '] + t) == t;
  }

  /** The joined parts, all but the first prefixed with the space of ", ". */
  function Spaced(tags: seq<string>): (r: seq<string>)
    ensures |r| == |tags|
    ensures tags != [] ==> r[0] == tags[0]
    ensures forall i :: 1 <= i < |tags| ==> r[i] == [' '] + tags[i]
  {
    if tags == [] then [] else [tags[0]] + seq(|tags| - 1, i requires 0 <= i < |tags| - 1 => [' '] + tags[i + 1])
  }

  lemma {:induction false} JoinTagsSpaced(tags: seq<string>)
    ensures JoinTags(tags) == Join(Spaced(tags), ',')
  {
    if |tags| > 1 {
      JoinTagsSpaced(tags[1..]);
      var s := Spaced(tags);
      var t := Spaced(tags[1..]);
      SpacedTail(tags);
      JoinLeadingSpace(t);
      calc {
        Join(s, ',');
        s[0] + [','] + Join(s[1..], ',');
        tags[0] + [','] + ([' '] + Join(t, ','));
        { assert ", " == [','] + [' ']; }
        tags[0] + ", " + JoinTags(tags[1..]);
      }
    }
  }

  /** Past the first part, the spaced parts are the spaced tail with a space in front of its head. */
  lemma SpacedTail(tags: seq<string>)
    requires |tags| > 1
    ensures Spaced(tags)[1..] == [[' '] + Spaced(tags[1..])[0]] + Spaced(tags[1..])[1..]
  {
    var s := Spaced(tags);
    var t := Spaced(tags[1..]);
    var u := [[' '] + t[0]] + t[1..];
    assert |s[1..]| == |u|;
    forall k | 0 <= k < |u| ensures s[1..][k] == u[k] {
      if k > 0 {
        assert u[k] == t[k] == [' '] + tags[1..][k];
      }
    }
  }

  /** A space in front of the first part is a space in front of the join. */
  lemma JoinLeadingSpace(t: seq<string>)
    requires t != []
    ensures Join([[' '] + t[0]] + t[1..], ',') == [' '] + Join(t, ',')
  {
    var u := [[' '] + t[0]] + t[1..];
    if |t| > 1 {
      assert u[1..] == t[1..];
    }
  }

  /**
   * Tags shown in the edit form are sent back unchanged: joining with ", " and
   * splitting again gives the stored tags, provided each tag is trimmed and
   * comma-free and the list is not the single empty tag (whose join, "",
   * is sent as no tags at all).
   */
  lemma TagsRoundTrip(tags: seq<string>)
    requires forall i :: 0 <= i < |tags| ==> Trimmed(tags[i]) && ',' !in tags[i]
    requires tags != [""]
    ensures SplitTags(Some(JoinTags(tags))) == tags
  {
    if tags != [] {
      JoinTagsNonEmpty(tags);
      SplitJoinedTags(tags);
      TrimSpaced(tags);
    }
  }

  lemma SplitJoinedTags(tags: seq<string>)
    requires forall i :: 0 <= i < |tags| ==> ',' !in tags[i]
    requires tags != []
    ensures Split(JoinTags(tags), ',') == Spaced(tags)
  {
    JoinTagsSpaced(tags);
    SpacedCommaFree(tags);
    SplitJoin(Spaced(tags), ',');
  }

  lemma JoinTagsNonEmpty(tags: seq<string>)
    requires tags != [] && tags != [""]
    ensures JoinTags(tags) != []
  {
    if |tags| == 1 {
      assert tags[0] != [];
    } else {
      assert JoinTags(tags) == tags[0] + ", " + JoinTags(tags[1..]);
    }
  }

  lemma SpacedCommaFree(tags: seq<string>)
    requires forall i :: 0 <= i < |tags| ==> ',' !in tags[i]
    ensures forall i :: 0 <= i < |tags| ==> ',' !in Spaced(tags)[i]
  {
    forall i | 1 <= i < |tags| ensures ',' !in Spaced(tags)[i] {
      var t := tags[i];
      assert Spaced(tags)[i] == [' '] + t;
      assert forall k :: 0 < k < |t| + 1 ==> ([' '] + t)[k] == t[k - 1];
    }
  }

  lemma TrimSpaced(tags: seq<string>)
    requires forall i :: 0 <= i < |tags| ==> Trimmed(tags[i])
    ensures TrimAll(Spaced(tags)) == tags
  {
    var r := TrimAll(Spaced(tags));
    forall i | 0 <= i < |tags| ensures r[i] == tags[i] {
      TrimPadded(tags[i]);
      if i == 0 {
        assert Spaced(tags)[0] == tags[0];
      } else {
        assert Spaced(tags)[i] == [' '] + tags[i];
      }
    }
  }

  /** The creation request: the form values with the page's project, the steps and the split tags. */
  function MutationBody(f: FormValues, projectId: int): (b: TestCaseBody)
    ensures b.testId.None? && b.createdBy.None?
    ensures b.projectId == Some(projectId) && b.folderId == Some(f.folderId)
    ensures b.name == Some(f.name) && b.steps == Some(f.steps) && b.tags == Some(SplitTags(f.tags))
  {
    TestCaseBody(None, Some(f.name), f.description, Some(f.priority), Some(f.status), Some(f.testType),
                 f.preconditions, Some(f.folderId), Some(projectId), Some(f.steps), Some(SplitTags(f.tags)), None)
  }

  /**
   * Once the creation handler fills in the generated test id, the path's
   * project and the requester, the form's body always parses, and the stored
   * columns are the form's.
   */
  lemma FormBodyAccepted(f: FormValues, projectId: int, testId: string, pathProject: int, userId: int)
    ensures var full := MutationBody(f, projectId).(projectId := Some(pathProject), createdBy := Some(userId),
                                                   testId := Some(testId));
            var parsed := ParseTestCase(full);
            && parsed.Parsed?
            && parsed.value.name == f.name && parsed.value.folderId == f.folderId && parsed.value.steps == f.steps
            && parsed.value.priority == f.priority && parsed.value.status == f.status
            && parsed.value.testType == f.testType && parsed.value.tags == Some(SplitTags(f.tags))
            && parsed.value.projectId == pathProject && parsed.value.testId == testId
            && parsed.value.createdBy == userId
  {
  }

  /** Before the handler fills them in, exactly the test id and the creator are missing from the body. */
  lemma FormBodyLacksServerColumns(f: FormValues, projectId: int)
    ensures var parsed := ParseTestCase(MutationBody(f, projectId));
            parsed.Rejected? && forall c :: c in parsed.missing <==> c == "test_id" || c == "created_by"
  {
    var b := MutationBody(f, projectId);
    assert !TestCaseSupplies(b, "test_id") && !TestCaseSupplies(b, "created_by");
    forall c | c in TestCaseRequired && c != "test_id" && c != "created_by" ensures TestCaseSupplies(b, c) {
    }
  }
}
