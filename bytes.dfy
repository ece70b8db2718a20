/**
 * Row keys, start keys and table names are byte arrays compared the way
 * Bytes.compareTo compares them: byte by byte as unsigned values, a proper
 * prefix sorting before the longer array.
 */
module Bytes {
  import opened Wrappers

  newtype byte = x: int | 0 <= x < 256

  type Bytes = seq<byte>

  /** Strict unsigned lexicographic order. */
  predicate Less(a: Bytes, b: Bytes)
    decreases |a|
  {
    if |a| == 0 then |b| > 0
    else if |b| == 0 then false
    else if a[0] != b[0] then a[0] < b[0]
    else Less(a[1..], b[1..])
  }

  predicate LessEq(a: Bytes, b: Bytes) {
    a == b || Less(a, b)
  }

  lemma {:induction false} LessIrreflexive(a: Bytes)
    ensures !Less(a, a)
    decreases |a|
  {
    if |a| > 0 { LessIrreflexive(a[1..]); }
  }

  lemma {:induction false} LessAsymmetric(a: Bytes, b: Bytes)
    ensures !(Less(a, b) && Less(b, a))
    decreases |a|
  {
    if |a| > 0 && |b| > 0 && a[0] == b[0] { LessAsymmetric(a[1..], b[1..]); }
  }

  lemma {:induction false} LessTransitive(a: Bytes, b: Bytes, c: Bytes)
    requires Less(a, b) && Less(b, c)
    ensures Less(a, c)
    decreases |a|
  {
    if |a| > 0 && a[0] == b[0] && b[0] == c[0] { LessTransitive(a[1..], b[1..], c[1..]); }
  }

  lemma {:induction false} LessTotal(a: Bytes, b: Bytes)
    ensures a == b || Less(a, b) || Less(b, a)
    decreases |a|
  {
    if |a| > 0 && |b| > 0 && a[0] == b[0] {
      LessTotal(a[1..], b[1..]);
      if a[1..] == b[1..] {
        assert a == [a[0]] + a[1..] && b == [b[0]] + b[1..];
      }
    }
  }

  lemma LessAsymmetricAll()
    ensures forall a, b :: !(Less(a, b) && Less(b, a))
  {
    forall a, b ensures !(Less(a, b) && Less(b, a)) { LessAsymmetric(a, b); }
  }

  /** k is the greatest element of s. */
  predicate IsGreatest(k: Bytes, s: set<Bytes>) {
    k in s && forall j :: j in s && j != k ==> Less(j, k)
  }

  /** A finite non-empty set of keys has a greatest element. */
  lemma {:induction false} GreatestExists(s: set<Bytes>)
    requires s != {}
    ensures exists k :: IsGreatest(k, s)
    decreases |s|
  {
    var x :| x in s;
    if s == {x} {
      assert IsGreatest(x, s);
    } else {
      GreatestExists(s - {x});
      var m :| IsGreatest(m, s - {x});
      LessTotal(x, m);
      if Less(x, m) {
        assert IsGreatest(m, s);
      } else {
        forall j | j in s && j != x ensures Less(j, x) {
          if j != m { LessTransitive(j, m, x); }
        }
        assert IsGreatest(x, s);
      }
    }
  }

  /**
   * The greatest key of m strictly below row, as a sorted map's lowerKey
   * gives it; None when every key of m is at or above row.
   */
  function LowerKey<V>(m: map<Bytes, V>, row: Bytes): (r: Option<Bytes>)
    ensures r.Some? ==> r.value in m && Less(r.value, row)
    ensures r.Some? ==> forall j :: j in m && Less(j, row) ==> LessEq(j, r.value)
    ensures r.None? <==> forall j :: j in m ==> !Less(j, row)
  {
    var below := set k | k in m && Less(k, row);
    if below == {} then
      assert forall j :: j in m ==> (j in below <==> Less(j, row));
      None
    else
      GreatestExists(below);
      LessAsymmetricAll();
      var k :| IsGreatest(k, below);
      Some(k)
  }
}
