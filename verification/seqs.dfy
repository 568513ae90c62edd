/** Small facts about sequences used as ordered card lists. */
module Seqs {

  /** The members of a list, as a store set would hold them. */
  function Elements<T>(s: seq<T>): set<T> {
    set x | x in s
  }

  /** No element occurs twice. */
  predicate Distinct<T(==)>(s: seq<T>) {
    forall i, j :: 0 <= i < j < |s| ==> s[i] != s[j]
  }

  /** A list without repetitions holds exactly as many members as it has positions. */
  lemma {:induction false} DistinctElementsCount<T>(s: seq<T>)
    requires Distinct(s)
    ensures |Elements(s)| == |s|
  {
    if |s| > 0 {
      var t := s[1..];
      assert Distinct(t) by {
        forall i, j | 0 <= i < j < |t| ensures t[i] != t[j] {
          assert t[i] == s[i + 1] && t[j] == s[j + 1];
        }
      }
      DistinctElementsCount(t);
      assert s[0] !in Elements(t) by {
        forall k | 0 <= k < |t| ensures t[k] != s[0] {
          assert t[k] == s[k + 1];
        }
      }
      assert Elements(s) == Elements(t) + {s[0]} by {
        assert s == [s[0]] + t;
      }
    }
  }
}
