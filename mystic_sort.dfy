/**
 * `sortMaterials` of src/pages/tools/mystic-skills/logic.ts: a sorted copy
 * of the material names with `Ebon Iron` pinned to the front.
 *
 * `localeCompare` is a parameter: `le(a, b)` holds when
 * `a.localeCompare(b) <= 0`, a total preorder on names. `Array.prototype.sort`
 * is stable, so with such an order its result is the one stable sorted
 * permutation, which the insertion sort below also produces.
 */
module MysticSort {

  const EbonIron := "Ebon Iron"

  /** What the source relies on from `localeCompare`: a total, transitive order. */
  ghost predicate TotalPreorder(le: (string, string) -> bool) {
    && (forall a, b :: le(a, b) || le(b, a))
    && (forall a, b, c :: le(a, b) && le(b, c) ==> le(a, c))
  }

  predicate Sorted(s: seq<string>, le: (string, string) -> bool) {
    forall i, j :: 0 <= i < j < |s| ==> le(s[i], s[j])
  }

  /** The names equal to `Ebon Iron`, in order. */
  function Pinned(names: seq<string>): (r: seq<string>)
    ensures forall i :: 0 <= i < |r| ==> r[i] == EbonIron
    ensures multiset(r) == multiset{}[EbonIron := multiset(names)[EbonIron]]
  {
    if names == [] then []
    else
      assert names == [names[0]] + names[1..];
      (if names[0] == EbonIron then [names[0]] else []) + Pinned(names[1..])
  }

  /** The other names, in order. */
  function Others(names: seq<string>): (r: seq<string>)
    ensures forall i :: 0 <= i < |r| ==> r[i] != EbonIron
    ensures multiset(r) == multiset(names)[EbonIron := 0]
  {
    if names == [] then []
    else
      assert names == [names[0]] + names[1..];
      (if names[0] == EbonIron then [] else [names[0]]) + Others(names[1..])
  }

  /** `x` placed before the first element it is at or before. */
  function Insert(x: string, s: seq<string>, le: (string, string) -> bool): (r: seq<string>)
    ensures multiset(r) == multiset(s) + multiset{x}
    ensures forall y :: y in r ==> y == x || y in s
  {
    if s == [] || le(x, s[0]) then [x] + s
    else
      assert s == [s[0]] + s[1..];
      [s[0]] + Insert(x, s[1..], le)
  }

  function InsertionSort(s: seq<string>, le: (string, string) -> bool): (r: seq<string>)
    ensures multiset(r) == multiset(s)
  {
    if s == [] then []
    else
      assert s == [s[0]] + s[1..];
      Insert(s[0], InsertionSort(s[1..], le), le)
  }

  lemma {:induction false} InsertSorted(x: string, s: seq<string>, le: (string, string) -> bool)
    requires TotalPreorder(le) && Sorted(s, le)
    ensures Sorted(Insert(x, s, le), le)
    decreases |s|
  {
    if s != [] && !le(x, s[0]) {
      InsertSorted(x, s[1..], le);
      var r := Insert(x, s, le);
      var tail := Insert(x, s[1..], le);
      assert r == [s[0]] + tail;
      forall j | 0 <= j < |tail| ensures le(s[0], tail[j]) {
        assert tail[j] in tail;
        if tail[j] != x {
          var k :| 0 <= k < |s[1..]| && s[1..][k] == tail[j];
          assert s[k + 1] == tail[j];
        }
      }
    }
  }

  lemma {:induction false} InsertionSortSorted(s: seq<string>, le: (string, string) -> bool)
    requires TotalPreorder(le)
    ensures Sorted(InsertionSort(s, le), le)
    decreases |s|
  {
    if s != [] {
      InsertionSortSorted(s[1..], le);
      InsertSorted(s[0], InsertionSort(s[1..], le), le);
    }
  }

  /**
   * `sortMaterials(materialNames)`: a new array with the same names; every
   * `Ebon Iron` comes first, the other names follow in ascending order.
   */
  function SortMaterials(names: seq<string>, le: (string, string) -> bool): (r: seq<string>)
    requires TotalPreorder(le)
    ensures multiset(r) == multiset(names)
    ensures var k := multiset(names)[EbonIron];
            && k <= |r|
            && (forall i :: 0 <= i < k ==> r[i] == EbonIron)
            && (forall i :: k <= i < |r| ==> r[i] != EbonIron)
            && Sorted(r[k..], le)
  {
    var pinned := Pinned(names);
    var rest := InsertionSort(Others(names), le);
    InsertionSortSorted(Others(names), le);
    assert |pinned| == multiset(pinned)[EbonIron] == multiset(names)[EbonIron];
    assert multiset(pinned) + multiset(rest) == multiset(names);
    assert forall i :: 0 <= i < |rest| ==> rest[i] in multiset(rest);
    PinnedThenRest(pinned, rest, le);
    pinned + rest
  }

  /** Ebon Iron entries followed by a sorted run of other names keep that shape once joined. */
  lemma PinnedThenRest(pinned: seq<string>, rest: seq<string>, le: (string, string) -> bool)
    requires forall i :: 0 <= i < |pinned| ==> pinned[i] == EbonIron
    requires forall i :: 0 <= i < |rest| ==> rest[i] != EbonIron
    requires Sorted(rest, le)
    ensures var r := pinned + rest;
            && (forall i :: 0 <= i < |pinned| ==> r[i] == EbonIron)
            && (forall i :: |pinned| <= i < |r| ==> r[i] != EbonIron)
            && Sorted(r[|pinned|..], le)
  {
    var r := pinned + rest;
    assert r[|pinned|..] == rest;
    forall i | |pinned| <= i < |r|
      ensures r[i] != EbonIron
    {
      assert r[i] == rest[i - |pinned|];
    }
  }
}
