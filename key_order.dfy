/**
  The order Python 2's sorted() puts str keys in: character by character,
  a proper prefix first. (Dafny's own `<` on sequences means "proper
  prefix", so the order is defined here.)
 */
module KeyOrder {

  /** `a` sorts strictly before `b`. */
  predicate Below(a: string, b: string) {
    |b| > 0 && (|a| == 0 || a[0] < b[0] || (a[0] == b[0] && Below(a[1..], b[1..])))
  }

  lemma {:induction false} BelowIrreflexive(a: string)
    ensures !Below(a, a)
  {
    if |a| > 0 {
      BelowIrreflexive(a[1..]);
    }
  }

  lemma {:induction false} BelowAsymmetric(a: string, b: string)
    requires Below(a, b)
    ensures !Below(b, a)
  {
    if |a| > 0 && a[0] == b[0] {
      BelowAsymmetric(a[1..], b[1..]);
    }
  }

  lemma {:induction false} BelowTransitive(a: string, b: string, c: string)
    requires Below(a, b) && Below(b, c)
    ensures Below(a, c)
  {
    if |a| > 0 && a[0] == b[0] && b[0] == c[0] {
      BelowTransitive(a[1..], b[1..], c[1..]);
    }
  }

  /** Any two different keys are ordered one way or the other. */
  lemma {:induction false} BelowTotal(a: string, b: string)
    requires a != b
    ensures Below(a, b) || Below(b, a)
  {
    if |a| > 0 && |b| > 0 && a[0] == b[0] {
      assert a == [a[0]] + a[1..] && b == [b[0]] + b[1..];
      BelowTotal(a[1..], b[1..]);
    }
  }

  /** `m` is the smallest key of `keys`. */
  predicate IsLeast(m: string, keys: set<string>) {
    m in keys && forall k :: k in keys && k != m ==> Below(m, k)
  }

  /** Every non-empty set of keys has a least one. */
  lemma {:induction false} LeastExists(keys: set<string>)
    requires keys != {}
    ensures exists m :: IsLeast(m, keys)
    decreases |keys|
  {
    var x :| x in keys;
    var rest := keys - {x};
    if rest == {} {
      assert keys == {x};
      assert IsLeast(x, keys);
    } else {
      LeastExists(rest);
      var m :| IsLeast(m, rest);
      if Below(m, x) {
        assert IsLeast(m, keys);
      } else {
        BelowTotal(m, x);
        forall k | k in keys && k != x
          ensures Below(x, k)
        {
          if k != m {
            BelowTransitive(x, m, k);
          }
        }
        assert IsLeast(x, keys);
      }
    }
  }

  /** The least key is unique. */
  lemma LeastUnique(m: string, n: string, keys: set<string>)
    requires IsLeast(m, keys) && IsLeast(n, keys)
    ensures m == n
  {
    if m != n {
      BelowAsymmetric(m, n);
    }
  }

  /** Strictly ascending, hence without repeats. */
  predicate Ascending(s: seq<string>) {
    forall i, j :: 0 <= i < j < |s| ==> Below(s[i], s[j])
  }

  /** sorted(keys): the keys in ascending order (`SortedKeysAscending`). */
  ghost function SortedKeys(keys: set<string>): (s: seq<string>)
    decreases |keys|
    ensures |s| == |keys|
    ensures forall k :: k in keys <==> k in s
  {
    if keys == {} then []
    else
      LeastExists(keys);
      var m :| IsLeast(m, keys);
      [m] + SortedKeys(keys - {m})
  }

  lemma {:induction false} SortedKeysAscending(keys: set<string>)
    ensures Ascending(SortedKeys(keys))
    decreases |keys|
  {
    if keys != {} {
      var s := SortedKeys(keys);
      var m := s[0];
      var rest := s[1..];
      assert IsLeast(m, keys) by {
        LeastExists(keys);
      }
      SortedKeysUnfold(m, keys);
      assert rest == SortedKeys(keys - {m});
      SortedKeysAscending(keys - {m});
      forall i, j | 0 <= i < j < |s|
        ensures Below(s[i], s[j])
      {
        if i == 0 {
          assert s[j] == rest[j - 1] && rest[j - 1] in rest;
        } else {
          assert s[i] == rest[i - 1] && s[j] == rest[j - 1];
        }
      }
    }
  }

  /** Taking the least key off the front leaves the sorted rest. */
  lemma SortedKeysUnfold(m: string, keys: set<string>)
    requires IsLeast(m, keys)
    ensures SortedKeys(keys) == [m] + SortedKeys(keys - {m})
  {
    LeastExists(keys);
    var s := SortedKeys(keys);
    assert IsLeast(s[0], keys);
    LeastUnique(m, s[0], keys);
  }
}
