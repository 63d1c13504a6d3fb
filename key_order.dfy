/**
 * Python's ordering of str values (lexicographic by code point, a proper
 * prefix first) and `list.sort()` over a set of distinct keys, which the
 * data source uses to report unexpected configuration keys in a fixed order.
 */
module KeyOrder {

  /** Python's `a < b` on strings. */
  predicate Below(a: string, b: string)
    decreases |a|
  {
    if |a| == 0 then |b| > 0
    else if |b| == 0 then false
    else if a[0] != b[0] then a[0] < b[0]
    else Below(a[1..], b[1..])
  }

  lemma {:induction false} BelowIrreflexive(a: string)
    ensures !Below(a, a)
    decreases |a|
  {
    if |a| > 0 {
      BelowIrreflexive(a[1..]);
    }
  }

  lemma {:induction false} BelowTransitive(a: string, b: string, c: string)
    requires Below(a, b) && Below(b, c)
    ensures Below(a, c)
    decreases |a|
  {
    if |a| > 0 && |b| > 0 && |c| > 0 && a[0] == b[0] && b[0] == c[0] {
      BelowTransitive(a[1..], b[1..], c[1..]);
    }
  }

  /** Any two distinct strings are ordered one way or the other. */
  lemma {:induction false} BelowTotal(a: string, b: string)
    requires a != b
    ensures Below(a, b) || Below(b, a)
    decreases |a|
  {
    if |a| > 0 && |b| > 0 && a[0] == b[0] {
      assert a == [a[0]] + a[1..] && b == [b[0]] + b[1..];
      BelowTotal(a[1..], b[1..]);
    }
  }

  /** Strings that agree before position k and differ at k are ordered by
      their characters at k. */
  lemma {:induction false} BelowAtFirstDifference(a: string, b: string, k: nat)
    requires k < |a| && k < |b| && a[k] < b[k]
    requires forall i :: 0 <= i < k ==> a[i] == b[i]
    ensures Below(a, b)
    decreases k
  {
    if k > 0 {
      assert a[0] == b[0];
      BelowAtFirstDifference(a[1..], b[1..], k - 1);
    }
  }

  lemma BelowAsymmetric(a: string, b: string)
    requires Below(a, b)
    ensures !Below(b, a)
  {
    if Below(b, a) {
      BelowTransitive(a, b, a);
      BelowIrreflexive(a);
    }
  }

  /** Sorted in increasing order without repetitions. */
  ghost predicate StrictlySorted(s: seq<string>)
  {
    forall i, j :: 0 <= i < j < |s| ==> Below(s[i], s[j])
  }

  /** The smallest key of a non-empty set of keys. */
  method Least(keys: set<string>) returns (m: string)
    requires keys != {}
    ensures m in keys
    ensures forall k :: k in keys && k != m ==> Below(m, k)
  {
    m :| m in keys;
    var todo := keys - {m};
    while todo != {}
      invariant todo <= keys && m in keys && m !in todo
      invariant forall k :: k in keys && k !in todo && k != m ==> Below(m, k)
      decreases todo
    {
      var k :| k in todo;
      if Below(k, m) {
        forall j | j in keys && j !in todo && j != m
          ensures Below(k, j)
        {
          BelowTransitive(k, m, j);
        }
        m := k;
      } else {
        BelowTotal(m, k);
      }
      todo := todo - {k};
    }
  }

  /** The keys of a set in increasing order, as `sorted(keys)` gives them. */
  method SortedKeys(keys: set<string>) returns (r: seq<string>)
    ensures forall k :: k in r <==> k in keys
    ensures StrictlySorted(r)
    ensures |r| == |keys|
  {
    r := [];
    var rest := keys;
    while rest != {}
      invariant forall k :: k in keys <==> k in r || k in rest
      invariant forall k :: k in r ==> k !in rest
      invariant StrictlySorted(r)
      invariant forall i, k :: 0 <= i < |r| && k in rest ==> Below(r[i], k)
      invariant |r| + |rest| == |keys|
      decreases rest
    {
      var m := Least(rest);
      r := r + [m];
      rest := rest - {m};
    }
  }

  /** There is only one sorted order of a set of keys. */
  lemma {:induction false} SortedOrderIsUnique(a: seq<string>, b: seq<string>)
    requires StrictlySorted(a) && StrictlySorted(b)
    requires forall k :: k in a <==> k in b
    ensures a == b
    decreases |a|
  {
    if a != [] {
      assert a[0] in a;
    }
    if b != [] {
      assert b[0] in b;
    }
    if a != [] && b != [] {
      assert a == [a[0]] + a[1..] && b == [b[0]] + b[1..];
      if a[0] != b[0] {
        assert b[0] in b && a[0] in a;
        var j :| 0 <= j < |a| && a[j] == b[0];
        var i :| 0 <= i < |b| && b[i] == a[0];
        assert Below(a[0], b[0]) && Below(b[0], a[0]);
        BelowAsymmetric(a[0], b[0]);
      }
      forall k
        ensures k in a[1..] <==> k in b[1..]
      {
        if k in a[1..] {
          var i :| 1 <= i < |a| && a[i] == k;
          BelowIrreflexive(a[0]);
          assert k != a[0] && k in b;
        }
        if k in b[1..] {
          var i :| 1 <= i < |b| && b[i] == k;
          BelowIrreflexive(b[0]);
          assert k != b[0] && k in a;
        }
      }
      SortedOrderIsUnique(a[1..], b[1..]);
    }
  }
}
