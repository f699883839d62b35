/**
 * The home screen's list of widgets ("elements") and the three operations the
 * modal's state setters perform on it: the initial population from the
 * element catalogue, the stable descending sort by importance, and the
 * importance update of one element.
 */
module HomeElements {
  import opened Wrappers

  /** A catalogue entry of `Elements`: an id and a component (an opaque reference here). */
  datatype ElementDef = ElementDef(id: string, component: nat)

  /** A list entry; `importance` is `undefined` until the widget reports one. */
  datatype Element = Element(id: string, component: nat, importance: Option<int>)

  /** The importance the comparator uses: `undefined` counts as -1. */
  function EffectiveImportance(e: Element): (k: int)
    ensures e.importance.Some? ==> k == e.importance.value
    ensures e.importance.None? ==> k == -1
  {
    e.importance.GetOr(-1)
  }

  /** Sorted by the comparator `(a, b) => bImportance - aImportance`: non-increasing effective importance. */
  ghost predicate NonIncreasing(s: seq<Element>) {
    forall i, j :: 0 <= i < j < |s| ==> EffectiveImportance(s[i]) >= EffectiveImportance(s[j])
  }

  /** The subsequence of the elements whose effective importance is `k`. */
  function WithImportance(s: seq<Element>, k: int): (r: seq<Element>)
    ensures |r| <= |s|
    ensures forall e :: e in r ==> e in s && EffectiveImportance(e) == k
  {
    if s == [] then []
    else if EffectiveImportance(s[0]) == k then [s[0]] + WithImportance(s[1..], k)
    else WithImportance(s[1..], k)
  }

  // ---------------------------------------------------------------------
  // The specification of the sort: a stable insertion sort on values.
  // ---------------------------------------------------------------------

  /**
   * Puts `x`, which came earlier in the input than every element of `s`,
   * in front of the first element that does not outrank it.
   */
  function InsertByImportance(x: Element, s: seq<Element>): (r: seq<Element>)
    ensures |r| == |s| + 1
  {
    if s == [] || EffectiveImportance(s[0]) <= EffectiveImportance(x) then [x] + s
    else [s[0]] + InsertByImportance(x, s[1..])
  }

  /** The list `sortElementsByImportance` leaves behind. */
  function SortedByImportance(s: seq<Element>): (r: seq<Element>)
    ensures |r| == |s|
  {
    if s == [] then [] else InsertByImportance(s[0], SortedByImportance(s[1..]))
  }

  /** `x` lands after the prefix of `s` that outranks it. */
  lemma {:induction false} InsertAfterPrefix(x: Element, s: seq<Element>, p: nat)
    requires p <= |s|
    requires forall m :: 0 <= m < p ==> EffectiveImportance(s[m]) > EffectiveImportance(x)
    requires p == |s| || EffectiveImportance(s[p]) <= EffectiveImportance(x)
    ensures InsertByImportance(x, s) == s[..p] + [x] + s[p..]
  {
    if p > 0 {
      InsertAfterPrefix(x, s[1..], p - 1);
      assert s[1..][..p - 1] == s[1..p];
      assert s[1..][p - 1..] == s[p..];
      assert s[..p] == [s[0]] + s[1..p];
    }
  }

  /** Putting an element that outranks-or-ties every element in front keeps a list ordered. */
  lemma ConsKeepsOrder(h: Element, r: seq<Element>)
    requires NonIncreasing(r)
    requires forall e :: e in r ==> EffectiveImportance(e) <= EffectiveImportance(h)
    ensures NonIncreasing([h] + r)
  {
    forall i, j | 0 <= i < j < |[h] + r|
      ensures EffectiveImportance(([h] + r)[i]) >= EffectiveImportance(([h] + r)[j])
    {
      assert ([h] + r)[j] == r[j - 1];
      assert r[j - 1] in r;
      if i > 0 {
        assert ([h] + r)[i] == r[i - 1];
      }
    }
  }

  lemma {:induction false} InsertKeepsOrder(x: Element, s: seq<Element>)
    requires NonIncreasing(s)
    ensures NonIncreasing(InsertByImportance(x, s))
  {
    if s == [] || EffectiveImportance(s[0]) <= EffectiveImportance(x) {
      forall e | e in s ensures EffectiveImportance(e) <= EffectiveImportance(x) {
        var k :| 0 <= k < |s| && s[k] == e;
      }
      ConsKeepsOrder(x, s);
    } else {
      NonIncreasingTail(s);
      InsertKeepsOrder(x, s[1..]);
      InsertMultiset(x, s[1..]);
      var r := InsertByImportance(x, s[1..]);
      forall e | e in r ensures EffectiveImportance(e) <= EffectiveImportance(s[0]) {
        assert e in multiset(s[1..]) + multiset{x};
        if e != x {
          assert e in s[1..];
          var k :| 0 <= k < |s[1..]| && s[1..][k] == e;
          assert s[k + 1] == e;
        }
      }
      ConsKeepsOrder(s[0], r);
    }
  }

  lemma {:induction false} InsertMultiset(x: Element, s: seq<Element>)
    ensures multiset(InsertByImportance(x, s)) == multiset(s) + multiset{x}
  {
    if s != [] && EffectiveImportance(s[0]) > EffectiveImportance(x) {
      InsertMultiset(x, s[1..]);
      assert s == [s[0]] + s[1..];
    }
  }

  lemma {:induction false} InsertWithImportance(x: Element, s: seq<Element>, k: int)
    ensures WithImportance(InsertByImportance(x, s), k)
         == if EffectiveImportance(x) == k then [x] + WithImportance(s, k) else WithImportance(s, k)
  {
    if s != [] && EffectiveImportance(s[0]) > EffectiveImportance(x) {
      InsertWithImportance(x, s[1..], k);
      assert ([s[0]] + InsertByImportance(x, s[1..]))[1..] == InsertByImportance(x, s[1..]);
    } else {
      assert ([x] + s)[1..] == s;
    }
  }

  /**
   * The sort's promise: the result is ordered by non-increasing effective
   * importance, is a permutation of the input, and keeps elements of equal
   * effective importance in their input order (a stable sort).
   */
  lemma {:induction false} SortedByImportanceCorrect(s: seq<Element>)
    ensures NonIncreasing(SortedByImportance(s))
    ensures multiset(SortedByImportance(s)) == multiset(s)
    ensures forall k :: WithImportance(SortedByImportance(s), k) == WithImportance(s, k)
  {
    if s != [] {
      var t := SortedByImportance(s[1..]);
      SortedByImportanceCorrect(s[1..]);
      InsertKeepsOrder(s[0], t);
      InsertMultiset(s[0], t);
      assert s == [s[0]] + s[1..];
      forall k ensures WithImportance(SortedByImportance(s), k) == WithImportance(s, k) {
        InsertWithImportance(s[0], t, k);
      }
    }
  }

  /** Sorting keeps the length and the set of ids. */
  lemma SortedByImportanceKeepsIds(s: seq<Element>)
    ensures |SortedByImportance(s)| == |s|
    ensures forall e :: e in SortedByImportance(s) <==> e in s
  {
    SortedByImportanceCorrect(s);
    assert |multiset(SortedByImportance(s))| == |multiset(s)|;
    forall e ensures e in SortedByImportance(s) <==> e in s {
      assert e in SortedByImportance(s) <==> e in multiset(SortedByImportance(s));
    }
  }

  /** A list that is already in order is left as it is, so sorting twice is sorting once. */
  lemma {:induction false} SortedByImportanceIdempotent(s: seq<Element>)
    requires NonIncreasing(s)
    ensures SortedByImportance(s) == s
  {
    if s != [] {
      NonIncreasingTail(s);
      SortedByImportanceIdempotent(s[1..]);
      assert s == [s[0]] + s[1..];
      if |s| > 1 {
        assert EffectiveImportance(s[1..][0]) <= EffectiveImportance(s[0]);
      }
    }
  }

  lemma NonIncreasingTail(s: seq<Element>)
    requires s != [] && NonIncreasing(s)
    ensures NonIncreasing(s[1..])
  {
    forall i, j | 0 <= i < j < |s[1..]|
      ensures EffectiveImportance(s[1..][i]) >= EffectiveImportance(s[1..][j])
    {
      assert s[1..][i] == s[i + 1] && s[1..][j] == s[j + 1];
    }
  }

  lemma HeadClassNonEmpty(s: seq<Element>)
    requires s != []
    ensures WithImportance(s, EffectiveImportance(s[0])) != []
  {
  }

  /** In an ordered non-empty list no element outranks the first. */
  lemma HeadIsMax(s: seq<Element>, e: Element)
    requires NonIncreasing(s) && e in s
    ensures EffectiveImportance(e) <= EffectiveImportance(s[0])
  {
    var i :| 0 <= i < |s| && s[i] == e;
  }

  /**
   * Two ordered lists with the same subsequence per effective importance are
   * equal: ordering plus stability determine the result of the sort.
   */
  lemma {:induction false} OrderAndStabilityDetermineList(r: seq<Element>, t: seq<Element>)
    requires NonIncreasing(r) && NonIncreasing(t)
    requires forall k :: WithImportance(r, k) == WithImportance(t, k)
    ensures r == t
  {
    if r == [] || t == [] {
      if r != [] {
        HeadClassNonEmpty(r);
        assert false;
      } else if t != [] {
        HeadClassNonEmpty(t);
        assert false;
      }
    } else {
      var a, b := EffectiveImportance(r[0]), EffectiveImportance(t[0]);
      assert WithImportance(r, a) != [];
      assert WithImportance(t, a)[0] in WithImportance(t, a);
      HeadIsMax(t, WithImportance(t, a)[0]);
      assert WithImportance(t, b) != [];
      assert WithImportance(r, b)[0] in WithImportance(r, b);
      HeadIsMax(r, WithImportance(r, b)[0]);
      assert a == b;
      assert WithImportance(r, a) == [r[0]] + WithImportance(r[1..], a);
      assert WithImportance(t, a) == [t[0]] + WithImportance(t[1..], a);
      assert r[0] == t[0];
      forall k ensures WithImportance(r[1..], k) == WithImportance(t[1..], k) {
        if k == a {
          assert WithImportance(r[1..], k) == WithImportance(r, k)[1..];
          assert WithImportance(t[1..], k) == WithImportance(t, k)[1..];
        } else {
          assert WithImportance(r[1..], k) == WithImportance(r, k);
          assert WithImportance(t[1..], k) == WithImportance(t, k);
        }
      }
      NonIncreasingTail(r);
      NonIncreasingTail(t);
      OrderAndStabilityDetermineList(r[1..], t[1..]);
      assert r == [r[0]] + r[1..] && t == [t[0]] + t[1..];
    }
  }

  /** The sort is the only stable descending ordering of its input. */
  lemma StableSortIsUnique(s: seq<Element>, r: seq<Element>)
    requires NonIncreasing(r)
    requires forall k :: WithImportance(r, k) == WithImportance(s, k)
    ensures r == SortedByImportance(s)
  {
    SortedByImportanceCorrect(s);
    OrderAndStabilityDetermineList(r, SortedByImportance(s));
  }

  // ---------------------------------------------------------------------
  // The importance update.
  // ---------------------------------------------------------------------

  /** `findIndex(element => element.id === id)`: the first matching position, or -1. */
  function FindIndex(s: seq<Element>, id: string): (r: int)
    ensures -1 <= r < |s|
    ensures r == -1 <==> forall i :: 0 <= i < |s| ==> s[i].id != id
    ensures 0 <= r ==> s[r].id == id && forall i :: 0 <= i < r ==> s[i].id != id
  {
    if s == [] then -1
    else if s[0].id == id then 0
    else
      var k := FindIndex(s[1..], id);
      if k == -1 then -1 else k + 1
  }

  /**
   * `updateImportance(id, value)` on a list: the first element with that id
   * gets importance `value`; nothing else changes. An unknown id makes the
   * write on `updatedElements[-1]` throw, which is `None` here.
   */
  function ImportanceUpdated(s: seq<Element>, id: string, value: int): (r: Option<seq<Element>>)
    ensures r.Some? <==> exists i :: 0 <= i < |s| && s[i].id == id
    ensures r.Some? ==> |r.value| == |s|
    ensures r.Some? ==>
      exists i :: (0 <= i < |s| && s[i].id == id
        && (forall j :: 0 <= j < i ==> s[j].id != id)
        && r.value[i] == Element(id, s[i].component, Some(value))
        && forall j :: 0 <= j < |s| && j != i ==> r.value[j] == s[j])
  {
    var index := FindIndex(s, id);
    if index < 0 then None
    else Some(s[index := s[index].(importance := Some(value))])
  }

  /**
   * `handleImportanceChange(id, value)` on a list: update, then sort. The
   * result is ordered, a permutation of the updated list, and holds the
   * element with its new importance.
   */
  lemma ImportanceChangeSorted(s: seq<Element>, id: string, value: int)
    requires exists i :: 0 <= i < |s| && s[i].id == id
    ensures var r := SortedByImportance(ImportanceUpdated(s, id, value).value);
      && NonIncreasing(r)
      && |r| == |s|
      && multiset(r) == multiset(ImportanceUpdated(s, id, value).value)
      && (exists i :: 0 <= i < |r| && r[i].id == id && r[i].importance == Some(value))
  {
    var u := ImportanceUpdated(s, id, value).value;
    var i :| 0 <= i < |s| && s[i].id == id
      && u[i] == Element(id, s[i].component, Some(value));
    SortedByImportanceCorrect(u);
    SortedByImportanceKeepsIds(u);
    var r := SortedByImportance(u);
    assert u[i] in r;
    var k :| 0 <= k < |r| && r[k] == u[i];
  }

  // ---------------------------------------------------------------------
  // The component's `elements` state and its setters.
  // ---------------------------------------------------------------------

  /**
   * The shifting loop of one insertion step: the elements after `a[i]` that
   * outrank `x` move one place left; `j` is where `x` belongs.
   */
  method ShiftOutranking(a: array<Element>, i: nat, x: Element) returns (j: nat)
    requires i < a.Length
    modifies a
    ensures i <= j < a.Length
    ensures forall k :: 0 <= k < i ==> a[k] == old(a[k])
    ensures forall k :: i <= k < j ==> a[k] == old(a[k + 1])
    ensures forall k :: j < k < a.Length ==> a[k] == old(a[k])
    ensures forall k :: i < k <= j ==> EffectiveImportance(old(a[k])) > EffectiveImportance(x)
    ensures j + 1 == a.Length || EffectiveImportance(old(a[j + 1])) <= EffectiveImportance(x)
  {
    var n := a.Length;
    j := i;
    while j + 1 < n && EffectiveImportance(a[j + 1]) > EffectiveImportance(x)
      invariant i <= j < n
      invariant forall k :: 0 <= k < i ==> a[k] == old(a[k])
      invariant forall k :: i <= k < j ==> a[k] == old(a[k + 1])
      invariant forall k :: j < k < n ==> a[k] == old(a[k])
      invariant forall k :: i < k <= j ==> EffectiveImportance(old(a[k])) > EffectiveImportance(x)
    {
      a[j] := a[j + 1];
      j := j + 1;
    }
  }

  /**
   * One step of the insertion sort: `a[i]` moves right past the elements of
   * the sorted suffix `a[i+1..]` that outrank it.
   */
  method InsertIntoSuffix(a: array<Element>, i: nat)
    requires i < a.Length
    modifies a
    ensures a[..i] == old(a[..i])
    ensures a[i..] == InsertByImportance(old(a[i]), old(a[i + 1..]))
  {
    var x := a[i];
    ghost var o := a[..];
    ghost var t := a[i + 1..];
    var j := ShiftOutranking(a, i, x);
    a[j] := x;
    ShiftedIsInsertion(a[..], o, i, j, x);
    assert o[i + 1..] == t;
    forall m | 0 <= m < j - i ensures EffectiveImportance(t[m]) > EffectiveImportance(x) {
      assert t[m] == o[i + 1 + m];
    }
    assert j - i < |t| ==> t[j - i] == o[j + 1];
    InsertAfterPrefix(x, t, j - i);
  }

  /** The array left by the shifting loop, as a sequence: the outranking run, then `x`, then the rest. */
  lemma ShiftedIsInsertion(u: seq<Element>, o: seq<Element>, i: nat, j: nat, x: Element)
    requires |u| == |o| && i <= j < |u|
    requires forall k :: 0 <= k < i ==> u[k] == o[k]
    requires forall k :: i <= k < j ==> u[k] == o[k + 1]
    requires u[j] == x
    requires forall k :: j < k < |u| ==> u[k] == o[k]
    ensures u[..i] == o[..i]
    ensures u[i..] == o[i + 1..][..j - i] + [x] + o[i + 1..][j - i..]
  {
    var t := o[i + 1..];
    var w := t[..j - i] + [x] + t[j - i..];
    assert |u[i..]| == |w|;
    forall k | 0 <= k < |w| ensures u[i..][k] == w[k] {
      if k < j - i {
        assert w[k] == t[k];
      } else if k == j - i {
        assert w[k] == x;
      } else {
        assert w[k] == t[k - 1];
      }
    }
  }

  /** `array.sort` with the importance comparator, run in place on the copied array. */
  method SortByImportanceInPlace(a: array<Element>)
    modifies a
    ensures a[..] == SortedByImportance(old(a[..]))
  {
    ghost var orig := a[..];
    var i := a.Length;
    while i > 0
      invariant 0 <= i <= a.Length
      invariant a[..i] == orig[..i]
      invariant a[i..] == SortedByImportance(orig[i..])
    {
      i := i - 1;
      assert orig[i..] == [orig[i]] + orig[i + 1..];
      assert a[i] == orig[i];
      InsertIntoSuffix(a, i);
    }
    assert orig[0..] == orig;
  }

  /** The modal's `elements` state, which the setters replace. */
  class HomeModal {
    var elements: seq<Element>

    constructor ()
      ensures elements == []
    {
      elements := [];
    }

    /** The mount effect: clear the list, then append each catalogue entry with no importance. */
    method Populate(catalogue: seq<ElementDef>)
      modifies this
      ensures |elements| == |catalogue|
      ensures forall i :: 0 <= i < |catalogue| ==>
        elements[i] == Element(catalogue[i].id, catalogue[i].component, None)
    {
      elements := [];
      for i := 0 to |catalogue|
        invariant |elements| == i
        invariant forall k :: 0 <= k < i ==>
          elements[k] == Element(catalogue[k].id, catalogue[k].component, None)
      {
        elements := elements + [Element(catalogue[i].id, catalogue[i].component, None)];
      }
    }

    /** `sortElementsByImportance`: copy the list into an array, sort it, store it. */
    method SortElementsByImportance()
      modifies this
      ensures elements == SortedByImportance(old(elements))
    {
      var prev := elements;
      var sorted := new Element[|prev|](k requires 0 <= k < |prev| => prev[k]);
      assert sorted[..] == prev;
      SortByImportanceInPlace(sorted);
      elements := sorted[..];
    }

    /** `updateImportance`: `ok` is false when no element has that id (the write throws). */
    method UpdateImportance(id: string, value: int) returns (ok: bool)
      modifies this
      ensures ok == ImportanceUpdated(old(elements), id, value).Some?
      ensures elements == if ok then ImportanceUpdated(old(elements), id, value).value else old(elements)
    {
      var updated := elements;
      var index := FindIndex(updated, id);
      if index < 0 {
        ok := false;
        return;
      }
      updated := updated[index := updated[index].(importance := Some(value))];
      elements := updated;
      ok := true;
    }

    /** `handleImportanceChange`: update, then sort; a failed update leaves the list untouched. */
    method HandleImportanceChange(id: string, value: int) returns (ok: bool)
      modifies this
      ensures ok == ImportanceUpdated(old(elements), id, value).Some?
      ensures elements == if ok then SortedByImportance(ImportanceUpdated(old(elements), id, value).value)
                          else old(elements)
    {
      ok := UpdateImportance(id, value);
      if ok {
        SortElementsByImportance();
      }
    }
  }
}
