/** Cardinality facts about finite sets. */
module Sets {
  /** A subset is no larger. */
  lemma {:induction false} SubsetSmaller<X>(A: set<X>, B: set<X>)
    requires A <= B
    ensures |A| <= |B|
    decreases B
  {
    if A != {} {
      var x :| x in A;
      SubsetSmaller(A - {x}, B - {x});
    }
  }

  lemma SubtractSmaller<X>(U: set<X>, A: set<X>, B: set<X>)
    requires A <= B
    ensures |U - B| <= |U - A|
  {
    SubsetSmaller(U - B, U - A);
  }

  lemma SubtractStrictlySmaller<X>(U: set<X>, A: set<X>, B: set<X>, s: X)
    requires A <= B <= U && s in B && s !in A
    ensures |U - B| < |U - A|
  {
    SubsetSmaller(U - B, (U - A) - {s});
  }

  /** The values `f` takes on the elements of `s`. */
  ghost function Image<X, Y>(s: seq<X>, f: X -> Y): set<Y> {
    set x | x in s :: f(x)
  }

  /** Mapping the elements of a sequence yields at most as many values as the sequence is long. */
  lemma {:induction false} ImageSmaller<X, Y>(s: seq<X>, f: X -> Y)
    ensures |Image(s, f)| <= |s|
  {
    if s != [] {
      ImageSmaller(s[1..], f);
      var rest := Image(s[1..], f);
      assert Image(s, f) <= rest + {f(s[0])} by {
        forall x | x in s ensures f(x) in rest + {f(s[0])} {
          if x != s[0] {
            var k :| 0 <= k < |s| && s[k] == x;
            assert s[1..][k - 1] == x;
          }
        }
      }
      SubsetSmaller(Image(s, f), rest + {f(s[0])});
    }
  }
}
