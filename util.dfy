/** Small shared definitions: an optional value and distinctness of sequences. */
module Util {

  /** `undefined` / `-1` results of the source's look-ups. */
  datatype Option<+T> = None | Some(value: T)

  /** No element occurs twice. */
  predicate Distinct<T(==)>(s: seq<T>) {
    forall i, j :: 0 <= i < j < |s| ==> s[i] != s[j]
  }

  /** A sequence is distinct exactly when no element has multiplicity above one. */
  lemma {:induction false} DistinctIffSingletons<T>(s: seq<T>)
    ensures Distinct(s) <==> forall x :: multiset(s)[x] <= 1
  {
    if s == [] {
    } else {
      var t := s[1..];
      assert s == [s[0]] + t;
      DistinctIffSingletons(t);
      if Distinct(s) {
        assert Distinct(t) by {
          forall i, j | 0 <= i < j < |t| ensures t[i] != t[j] {
            assert t[i] == s[i + 1] && t[j] == s[j + 1];
          }
        }
        assert s[0] !in t by {
          forall j | 0 <= j < |t| ensures t[j] != s[0] {
            assert t[j] == s[j + 1];
          }
        }
        forall x ensures multiset(s)[x] <= 1 {
          assert multiset(s) == multiset{s[0]} + multiset(t);
          if x == s[0] {
            assert multiset(t)[x] == 0;
          }
        }
      } else {
        var i, j :| 0 <= i < j < |s| && s[i] == s[j];
        var x := s[i];
        if i == 0 {
          assert x in t by { assert t[j - 1] == s[j]; }
          assert multiset(s) == multiset{s[0]} + multiset(t);
          assert multiset(s)[x] >= 2;
        } else {
          assert t[i - 1] == t[j - 1];
          assert !Distinct(t);
          var y :| multiset(t)[y] > 1;
          assert multiset(s) == multiset{s[0]} + multiset(t);
          assert multiset(s)[y] > 1;
        }
      }
    }
  }

  /** Permuting a distinct sequence keeps it distinct. */
  lemma DistinctPermutation<T>(a: seq<T>, b: seq<T>)
    requires Distinct(a)
    requires multiset(a) == multiset(b)
    ensures Distinct(b)
  {
    DistinctIffSingletons(a);
    DistinctIffSingletons(b);
  }
}
