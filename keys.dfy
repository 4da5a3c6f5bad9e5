/** The order in which an object store hands back its records: ascending by
    key, keys being strings compared element by element, a proper prefix
    first. */
module Keys {
  import opened Seqs

  /** `a` sorts strictly before `b`. */
  predicate Below(a: string, b: string)
  {
    if a == [] then b != []
    else if b == [] then false
    else if a[0] == b[0] then Below(a[1..], b[1..])
    else a[0] < b[0]
  }

  lemma {:induction false} BelowIrreflexive(a: string)
    ensures !Below(a, a)
  {
    if a != [] {
      BelowIrreflexive(a[1..]);
    }
  }

  lemma {:induction false} BelowTransitive(a: string, b: string, c: string)
    requires Below(a, b) && Below(b, c)
    ensures Below(a, c)
  {
    if a != [] && a[0] == b[0] && b[0] == c[0] {
      BelowTransitive(a[1..], b[1..], c[1..]);
    }
  }

  lemma {:induction false} BelowTotal(a: string, b: string)
    requires a != b
    ensures Below(a, b) || Below(b, a)
  {
    if a != [] && b != [] && a[0] == b[0] {
      assert a == [a[0]] + a[1..] && b == [b[0]] + b[1..];
      BelowTotal(a[1..], b[1..]);
    }
  }

  lemma BelowAsymmetric(a: string, b: string)
    requires Below(a, b)
    ensures !Below(b, a)
  {
    if Below(b, a) {
      BelowTransitive(a, b, a);
      BelowIrreflexive(a);
    }
  }

  predicate IsLeast(k: string, s: set<string>)
  {
    k in s && forall k' :: k' in s && k' != k ==> Below(k, k')
  }

  lemma {:induction false} LeastExists(s: set<string>)
    requires s != {}
    ensures exists k :: IsLeast(k, s)
    decreases |s|
  {
    var x :| x in s;
    var rest := s - {x};
    if rest == {} {
      assert forall k' :: k' in s && k' != x ==> k' in rest;
      assert IsLeast(x, s);
    } else {
      LeastExists(rest);
      var m :| IsLeast(m, rest);
      if Below(x, m) {
        forall k' | k' in s && k' != x ensures Below(x, k') {
          if k' != m {
            BelowTransitive(x, m, k');
          }
        }
        assert IsLeast(x, s);
      } else {
        BelowTotal(x, m);
        assert IsLeast(m, s);
      }
    }
  }

  lemma LeastUnique(s: set<string>)
    ensures forall a, b :: IsLeast(a, s) && IsLeast(b, s) ==> a == b
  {
    forall a, b | IsLeast(a, s) && IsLeast(b, s) ensures a == b {
      if a != b {
        BelowAsymmetric(a, b);
      }
    }
  }

  /** The smallest key of a non-empty set. */
  function Least(s: set<string>): (k: string)
    requires s != {}
    ensures IsLeast(k, s)
  {
    LeastExists(s);
    LeastUnique(s);
    var k :| IsLeast(k, s);
    k
  }

  /** The keys of a set in ascending order. */
  function KeyOrder(s: set<string>): (ks: seq<string>)
    ensures |ks| == |s|
    ensures forall k :: k in ks <==> k in s
    decreases |s|
  {
    if s == {} then []
    else
      var k := Least(s);
      [k] + KeyOrder(s - {k})
  }

  predicate Ascending(ks: seq<string>)
  {
    forall i, j :: 0 <= i < j < |ks| ==> Below(ks[i], ks[j])
  }

  /** Smallest first, and so every key exactly once. */
  lemma {:induction false} KeyOrderSpec(s: set<string>)
    ensures Ascending(KeyOrder(s))
    ensures NoDuplicates(KeyOrder(s))
    decreases |s|
  {
    if s != {} {
      var k := Least(s);
      var rest := KeyOrder(s - {k});
      KeyOrderSpec(s - {k});
      var ks := KeyOrder(s);
      assert ks == [k] + rest;
      forall i, j | 0 <= i < j < |ks| ensures Below(ks[i], ks[j]) {
        assert ks[j] == rest[j - 1];
        if i > 0 {
          assert ks[i] == rest[i - 1];
        } else {
          assert rest[j - 1] in s - {k};
        }
      }
    }
    forall i, j | 0 <= i < j < |KeyOrder(s)| ensures KeyOrder(s)[i] != KeyOrder(s)[j] {
      BelowIrreflexive(KeyOrder(s)[i]);
    }
  }
}
