/** Sequence and map helpers shared by the store and the client-side list helpers. */
module Common {

  datatype Option<T> = None | Some(value: T)

  /** `a` can be obtained from `b` by deleting elements; the order of what is kept is preserved. */
  predicate IsSubsequence<T(==)>(a: seq<T>, b: seq<T>)
    decreases |b|
  {
    if a == [] then true
    else if b == [] then false
    else (a[0] == b[0] && IsSubsequence(a[1..], b[1..])) || IsSubsequence(a, b[1..])
  }

  /** Every sequence is a subsequence of itself. */
  lemma {:induction false} SubsequenceReflexive<T>(s: seq<T>)
    ensures IsSubsequence(s, s)
  {
    if s != [] {
      SubsequenceReflexive(s[1..]);
    }
  }

  /** Array.prototype.filter: the elements satisfying `p`, in their original order. */
  function Filter<T>(s: seq<T>, p: T -> bool): (r: seq<T>)
    ensures |r| <= |s|
    ensures forall i :: 0 <= i < |r| ==> r[i] in s && p(r[i])
    ensures forall i :: 0 <= i < |s| && p(s[i]) ==> s[i] in r
  {
    if s == [] then []
    else
      var rest := Filter(s[1..], p);
      assert forall i :: 1 <= i < |s| ==> s[i] == s[1..][i - 1];
      if p(s[0]) then [s[0]] + rest else rest
  }

  /**
   * Filter keeps every occurrence of a satisfying element and none of the
   * others; with FilterIsSubsequence this fixes the result, repeats included.
   */
  lemma {:induction false} FilterCount<T>(s: seq<T>, p: T -> bool, x: T)
    ensures multiset(Filter(s, p))[x] == if p(x) then multiset(s)[x] else 0
  {
    if s != [] {
      FilterCount(s[1..], p, x);
      assert s == [s[0]] + s[1..];
    }
  }

  lemma {:induction false} FilterIsSubsequence<T>(s: seq<T>, p: T -> bool)
    ensures IsSubsequence(Filter(s, p), s)
  {
    if s != [] {
      FilterIsSubsequence(s[1..], p);
    }
  }

  lemma {:induction false} FilterAppend<T>(a: seq<T>, b: seq<T>, p: T -> bool)
    ensures Filter(a + b, p) == Filter(a, p) + Filter(b, p)
  {
    if a == [] {
      assert a + b == b;
    } else {
      assert (a + b)[1..] == a[1..] + b;
      FilterAppend(a[1..], b, p);
    }
  }

  /** Two filters in a row are one filter with the conjunction of their predicates. */
  lemma {:induction false} FilterFilter<T>(s: seq<T>, p: T -> bool, q: T -> bool, both: T -> bool)
    requires forall x :: both(x) == (p(x) && q(x))
    ensures Filter(Filter(s, p), q) == Filter(s, both)
  {
    if s != [] {
      FilterFilter(s[1..], p, q, both);
    }
  }

  /** Filtering with a predicate that no element satisfies leaves nothing. */
  lemma {:induction false} FilterNone<T>(s: seq<T>, p: T -> bool)
    requires forall i :: 0 <= i < |s| ==> !p(s[i])
    ensures Filter(s, p) == []
  {
    if s != [] {
      FilterNone(s[1..], p);
    }
  }

  /** Filtering with a predicate that every element satisfies changes nothing. */
  lemma {:induction false} FilterKeepsAll<T>(s: seq<T>, p: T -> bool)
    requires forall i :: 0 <= i < |s| ==> p(s[i])
    ensures Filter(s, p) == s
  {
    if s != [] {
      FilterKeepsAll(s[1..], p);
    }
  }

  /** Filtering a sequence whose keys strictly increase gives a sequence whose keys strictly increase. */
  lemma {:induction false} FilterKeepsIncreasing<T>(s: seq<T>, p: T -> bool, key: T -> int)
    requires forall i, j :: 0 <= i < j < |s| ==> key(s[i]) < key(s[j])
    ensures forall i, j :: 0 <= i < j < |Filter(s, p)| ==> key(Filter(s, p)[i]) < key(Filter(s, p)[j])
  {
    if s != [] {
      FilterKeepsIncreasing(s[1..], p, key);
      var rest := Filter(s[1..], p);
      assert forall x :: x in rest ==> x in s[1..];
      forall x | x in rest ensures key(s[0]) < key(x) {
        var j :| 0 <= j < |s[1..]| && s[1..][j] == x;
        assert s[j + 1] == x;
      }
    }
  }

  /** Index of the first element satisfying `p` (Array.prototype.find, by position). */
  function FirstIndex<T>(s: seq<T>, p: T -> bool): (r: Option<nat>)
    ensures r.Some? ==> r.value < |s| && p(s[r.value]) && forall j :: 0 <= j < r.value ==> !p(s[j])
    ensures r.None? ==> forall i :: 0 <= i < |s| ==> !p(s[i])
  {
    if s == [] then None
    else if p(s[0]) then Some(0)
    else
      match FirstIndex(s[1..], p)
      case None => None
      case Some(i) => Some(i + 1)
  }

  /**
   * Toggling an id in a selection list: present ids are removed (every occurrence),
   * absent ids are appended at the end.
   */
  function Toggle(selection: seq<int>, id: int): (r: seq<int>)
    ensures id in r <==> id !in selection
    ensures forall x :: x != id ==> (x in r <==> x in selection)
    ensures id !in selection ==> r == selection + [id]
    ensures id in selection ==> IsSubsequence(r, selection) && |r| < |selection|
    ensures id in selection ==> forall x :: multiset(r)[x] == if x == id then 0 else multiset(selection)[x]
  {
    if id in selection then
      var kept := Filter(selection, x => x != id);
      FilterIsSubsequence(selection, x => x != id);
      FilterShrinks(selection, x => x != id, id);
      forall x ensures multiset(kept)[x] == if x == id then 0 else multiset(selection)[x] {
        FilterCount(selection, x => x != id, x);
      }
      kept
    else
      selection + [id]
  }

  /** Filtering out an element that occurs makes the sequence strictly shorter. */
  lemma {:induction false} FilterShrinks<T>(s: seq<T>, p: T -> bool, x: T)
    requires x in s && !p(x)
    ensures |Filter(s, p)| < |s|
  {
    if s[0] != x {
      FilterShrinks(s[1..], p, x);
    } else {
      assert |Filter(s[1..], p)| <= |s[1..]|;
    }
  }

  /** Toggling the same id twice, starting from a selection without it, restores the selection. */
  lemma ToggleTwice(selection: seq<int>, id: int)
    requires id !in selection
    ensures Toggle(Toggle(selection, id), id) == selection
  {
    var p := (x: int) => x != id;
    FilterAppend(selection, [id], p);
    FilterKeepsAll(selection, p);
    assert Filter([id], p) == [];
  }

  /** Map values in ascending key order for the dense key range 1..n. */
  function Values<T>(m: map<int, T>, n: nat): (r: seq<T>)
    requires forall k :: 1 <= k <= n ==> k in m
    ensures |r| == n
    ensures forall i :: 0 <= i < n ==> r[i] == m[i + 1]
  {
    if n == 0 then [] else Values(m, n - 1) + [m[n]]
  }

  /** The keys of `m` are exactly 1 .. next - 1: ids handed out by a counter starting at 1, never deleted. */
  ghost predicate Dense<T>(m: map<int, T>, next: int)
  {
    next >= 1 && forall k :: k in m <==> 1 <= k < next
  }

  lemma ValuesOfDense<T>(m: map<int, T>, next: int)
    requires Dense(m, next)
    ensures forall k :: k in m ==> m[k] in Values(m, next - 1)
    ensures forall x :: x in Values(m, next - 1) ==> x in m.Values
  {
    var s := Values(m, next - 1);
    forall k | k in m ensures m[k] in s {
      assert s[k - 1] == m[k];
    }
    forall x | x in s ensures x in m.Values {
      var i :| 0 <= i < |s| && s[i] == x;
      assert m[i + 1] == x;
    }
  }

  /** Every value of `m` carries its own key as id. */
  ghost predicate Keyed<T>(m: map<int, T>, id: T -> int)
  {
    forall k :: k in m ==> id(m[k]) == k
  }

  /** The values of a dense map satisfying `p`, in ascending key order (a filter over insertion order). */
  function Select<T(==)>(m: map<int, T>, next: int, p: T -> bool): (r: seq<T>)
    requires Dense(m, next)
    ensures forall i :: 0 <= i < |r| ==> r[i] in m.Values && p(r[i])
    ensures forall k :: k in m && p(m[k]) ==> m[k] in r
    ensures IsSubsequence(r, Values(m, next - 1))
  {
    ValuesOfDense(m, next);
    FilterIsSubsequence(Values(m, next - 1), p);
    Filter(Values(m, next - 1), p)
  }

  /** When values carry their key as id, a selection is a list of stored records in strictly increasing id order. */
  lemma SelectKeyed<T>(m: map<int, T>, next: int, p: T -> bool, id: T -> int)
    requires Dense(m, next) && Keyed(m, id)
    ensures forall i :: 0 <= i < |Select(m, next, p)| ==>
              id(Select(m, next, p)[i]) in m && m[id(Select(m, next, p)[i])] == Select(m, next, p)[i]
    ensures forall i, j :: 0 <= i < j < |Select(m, next, p)| ==> id(Select(m, next, p)[i]) < id(Select(m, next, p)[j])
  {
    var all := Values(m, next - 1);
    FilterKeepsIncreasing(all, p, id);
    var r := Select(m, next, p);
    forall i | 0 <= i < |r| ensures id(r[i]) in m && m[id(r[i])] == r[i] {
      var k :| k in m && m[k] == r[i];
    }
  }

  /** Counting the filtered values of a dense map counts the keys whose value satisfies `p`. */
  lemma {:induction false} FilterValuesCount<T>(m: map<int, T>, n: nat, p: T -> bool)
    requires forall k :: 1 <= k <= n ==> k in m
    ensures |Filter(Values(m, n), p)| == |set k | k in m && 1 <= k <= n && p(m[k])|
  {
    if n > 0 {
      FilterValuesCount(m, n - 1, p);
      FilterAppend(Values(m, n - 1), [m[n]], p);
      var before := set k | k in m && 1 <= k <= n - 1 && p(m[k]);
      var after := set k | k in m && 1 <= k <= n && p(m[k]);
      if p(m[n]) {
        assert after == before + {n};
      } else {
        assert after == before;
      }
    } else {
      assert (set k | k in m && 1 <= k <= n && p(m[k])) == {};
    }
  }

  /** Storing a value under the next key appends it to every selection it satisfies. */
  lemma SelectExtend<T>(m: map<int, T>, next: int, p: T -> bool, x: T)
    requires Dense(m, next)
    ensures Dense(m[next := x], next + 1)
    ensures Select(m[next := x], next + 1, p) == Select(m, next, p) + (if p(x) then [x] else [])
  {
    var m' := m[next := x];
    assert Values(m', next - 1) == Values(m, next - 1);
    assert Values(m', next) == Values(m, next - 1) + [x];
    FilterAppend(Values(m, next - 1), [x], p);
  }

  /** A selection no stored value satisfies is empty. */
  lemma {:induction false} SelectNone<T>(m: map<int, T>, next: int, p: T -> bool)
    requires Dense(m, next)
    requires forall k :: k in m ==> !p(m[k])
    ensures Select(m, next, p) == []
  {
    var all := Values(m, next - 1);
    forall i | 0 <= i < |all| ensures !p(all[i]) {
      assert all[i] == m[i + 1];
    }
    FilterNone(all, p);
  }

  /** A selection has as many elements as there are keys whose value satisfies `p`. */
  lemma SelectCount<T>(m: map<int, T>, next: int, p: T -> bool, keys: set<int>)
    requires Dense(m, next)
    requires forall k :: k in keys <==> k in m && p(m[k])
    ensures |Select(m, next, p)| == |keys|
  {
    FilterValuesCount(m, next - 1, p);
    assert (set k | k in m && 1 <= k <= next - 1 && p(m[k])) == keys;
  }

  /** `table[key] || table[fallback]`: a lookup with a fallback entry, for tables whose values are non-empty. */
  function LookupOr(table: map<string, string>, key: string, fallback: string): (r: string)
    requires fallback in table
    ensures key in table ==> r == table[key]
    ensures key !in table ==> r == table[fallback]
  {
    if key in table then table[key] else table[fallback]
  }
}
