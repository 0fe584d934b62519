/** Sequence helpers shared by the modules. */
module Collections {
  /** No element occurs twice. */
  predicate Distinct<T(==)>(s: seq<T>) {
    forall i, j :: 0 <= i < j < |s| ==> s[i] != s[j]
  }

  /** The set of elements of a sequence. */
  function Elems<T>(s: seq<T>): set<T> {
    set x | x in s
  }

  /**
   * `s` without the occurrences of `x`, the others in their order: what
   * `Set.prototype.delete` leaves of a set kept in insertion order.
   */
  function Remove<T(==)>(s: seq<T>, x: T): seq<T> {
    if s == [] then []
    else if s[0] == x then Remove(s[1..], x)
    else [s[0]] + Remove(s[1..], x)
  }

  /** Removing an element that is not there changes nothing. */
  lemma {:induction false} RemoveAbsent<T>(s: seq<T>, x: T)
    requires x !in s
    ensures Remove(s, x) == s
  {
    if s != [] {
      RemoveAbsent(s[1..], x);
    }
  }

  /** Removing the element at `j` of a repetition-free sequence splices it out. */
  lemma {:induction false} RemoveSplice<T>(s: seq<T>, j: nat)
    requires Distinct(s) && j < |s|
    ensures Remove(s, s[j]) == s[..j] + s[j + 1..]
  {
    if j == 0 {
      assert s[0] !in s[1..] by {
        forall i | 0 <= i < |s[1..]|
          ensures s[1..][i] != s[0]
        {
          assert s[1..][i] == s[i + 1];
        }
      }
      RemoveAbsent(s[1..], s[0]);
    } else {
      assert Distinct(s[1..]) by {
        forall i, k | 0 <= i < k < |s[1..]|
          ensures s[1..][i] != s[1..][k]
        {
          assert s[1..][i] == s[i + 1] && s[1..][k] == s[k + 1];
        }
      }
      assert s[1..][j - 1] == s[j];
      RemoveSplice(s[1..], j - 1);
      assert s[..j] == [s[0]] + s[1..][..j - 1];
      assert s[j + 1..] == s[1..][j..];
    }
  }

  /** What is left is what was there, less `x`, and still repetition-free. */
  lemma {:induction false} RemoveMembers<T>(s: seq<T>, x: T)
    requires Distinct(s)
    ensures x !in Remove(s, x) && Distinct(Remove(s, x))
    ensures forall y :: y in Remove(s, x) <==> y in s && y != x
  {
    if s != [] {
      assert Distinct(s[1..]) by {
        forall i, k | 0 <= i < k < |s[1..]|
          ensures s[1..][i] != s[1..][k]
        {
          assert s[1..][i] == s[i + 1] && s[1..][k] == s[k + 1];
        }
      }
      RemoveMembers(s[1..], x);
      assert s[0] !in s[1..] by {
        forall i | 0 <= i < |s[1..]|
          ensures s[1..][i] != s[0]
        {
          assert s[1..][i] == s[i + 1];
        }
      }
      if s[0] != x {
        var r := [s[0]] + Remove(s[1..], x);
        forall i, k | 0 <= i < k < |r|
          ensures r[i] != r[k]
        {
          if i == 0 {
            assert r[k] in Remove(s[1..], x);
          } else {
            assert r[i] == Remove(s[1..], x)[i - 1] && r[k] == Remove(s[1..], x)[k - 1];
          }
        }
      }
    }
  }
}
