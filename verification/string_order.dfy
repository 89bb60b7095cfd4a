/**
 * Lexicographic order on strings, as `std::string::operator<` compares them
 * (characters are Unicode scalar values compared by code point, which
 * agrees with comparing their UTF-8 bytes as unsigned values; a proper
 * prefix sorts first), and the sorted listing of a set of names that iterating a
 * `std::set<std::string>` or a `std::map<std::string, _>` produces.
 */
module StringOrder {

  /** `a` sorts strictly before `b`. */
  predicate Less(a: string, b: string)
    decreases |a|
  {
    if |a| == 0 then |b| > 0
    else if |b| == 0 then false
    else if a[0] != b[0] then a[0] < b[0]
    else Less(a[1..], b[1..])
  }

  lemma {:induction false} LessIrreflexive(a: string)
    ensures !Less(a, a)
    decreases |a|
  {
    if |a| > 0 {
      LessIrreflexive(a[1..]);
    }
  }

  lemma {:induction false} LessTransitive(a: string, b: string, c: string)
    requires Less(a, b) && Less(b, c)
    ensures Less(a, c)
    decreases |a|
  {
    if |a| > 0 && a[0] == b[0] && b[0] == c[0] {
      LessTransitive(a[1..], b[1..], c[1..]);
    }
  }

  /** Any two distinct strings are ordered one way or the other. */
  lemma {:induction false} LessTotal(a: string, b: string)
    requires a != b
    ensures Less(a, b) || Less(b, a)
    decreases |a|
  {
    if |a| > 0 && |b| > 0 && a[0] == b[0] {
      assert a == [a[0]] + a[1..] && b == [b[0]] + b[1..];
      LessTotal(a[1..], b[1..]);
    }
  }

  lemma LessAsymmetric(a: string, b: string)
    requires Less(a, b)
    ensures !Less(b, a)
  {
    if Less(b, a) {
      LessTransitive(a, b, a);
      LessIrreflexive(a);
    }
  }

  /** Strictly ascending: ordered and free of duplicates. */
  ghost predicate StrictlySorted(s: seq<string>) {
    forall i, j :: 0 <= i < j < |s| ==> Less(s[i], s[j])
  }

  /** The least element of a non-empty set of names. */
  method MinOf(s: set<string>) returns (m: string)
    requires s != {}
    ensures m in s
    ensures forall k :: k in s && k != m ==> Less(m, k)
  {
    m :| m in s;
    var rest := s - {m};
    while rest != {}
      invariant rest <= s && m in s && m !in rest
      invariant forall k :: k in s && k !in rest && k != m ==> Less(m, k)
      decreases rest
    {
      var x :| x in rest;
      if Less(x, m) {
        forall k | k in s && k !in rest && k != m
          ensures Less(x, k)
        {
          LessTransitive(x, m, k);
        }
        m := x;
      } else {
        LessTotal(x, m);
      }
      rest := rest - {x};
    }
  }

  /** The names of `keys` in ascending order, each once. */
  method SortedKeys(keys: set<string>) returns (r: seq<string>)
    ensures StrictlySorted(r)
    ensures forall k :: k in r <==> k in keys
  {
    r := [];
    var rest := keys;
    while rest != {}
      invariant rest <= keys
      invariant forall k :: k in keys <==> k in r || k in rest
      invariant StrictlySorted(r)
      invariant forall i, k :: 0 <= i < |r| && k in rest ==> Less(r[i], k)
      decreases rest
    {
      var m := MinOf(rest);
      r := r + [m];
      rest := rest - {m};
    }
  }

  /**
   * A strictly ascending listing is determined by its elements: whatever
   * order the names were inserted in, the listing of a set is the same.
   */
  lemma {:induction false} SortedUnique(a: seq<string>, b: seq<string>)
    requires StrictlySorted(a) && StrictlySorted(b)
    requires forall k :: k in a <==> k in b
    ensures a == b
    decreases |a|
  {
    if |a| > 0 {
      assert a[0] in b;
    }
    if |b| > 0 {
      assert b[0] in a;
    }
    if |a| > 0 {
      if a[0] != b[0] {
        var i :| 0 <= i < |a| && a[i] == b[0];
        var j :| 0 <= j < |b| && b[j] == a[0];
        assert Less(a[0], a[i]);
        assert Less(b[0], b[j]);
        LessAsymmetric(a[0], b[0]);
        assert false;
      }
      forall k
        ensures k in a[1..] <==> k in b[1..]
      {
        if k in a[1..] {
          var i :| 1 <= i < |a| && a[i] == k;
          assert Less(a[0], a[i]);
          LessIrreflexive(k);
          assert k != b[0];
          assert k in b;
        }
        if k in b[1..] {
          var j :| 1 <= j < |b| && b[j] == k;
          assert Less(b[0], b[j]);
          LessIrreflexive(k);
          assert k != a[0];
          assert k in a;
        }
      }
      SortedUnique(a[1..], b[1..]);
      assert a == [a[0]] + a[1..] && b == [b[0]] + b[1..];
    }
  }
}
