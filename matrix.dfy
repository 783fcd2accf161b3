/**
 * The build matrix: every (version, base variant) pair, versions in the outer
 * position and variants in the inner one, as both scripts enumerate it.
 */
module Matrix {

  /** No element occurs twice. */
  predicate Distinct<T(==)>(s: seq<T>)
  {
    forall i, j :: 0 <= i < j < |s| ==> s[i] != s[j]
  }

  /** The pairs of one version with every variant, in variant order. */
  function Row(version: string, bases: seq<string>): (r: seq<(string, string)>)
    ensures |r| == |bases|
    ensures forall j :: 0 <= j < |bases| ==> r[j] == (version, bases[j])
  {
    seq(|bases|, j requires 0 <= j < |bases| => (version, bases[j]))
  }

  /** The version-outer, variant-inner product of the two sequences. */
  function Product(versions: seq<string>, bases: seq<string>): (r: seq<(string, string)>)
    ensures |r| == |versions| * |bases|
  {
    if versions == [] then []
    else
      var n := |versions| - 1;
      assert |versions| * |bases| == n * |bases| + |bases|;
      Product(versions[..n], bases) + Row(versions[n], bases)
  }

  /** Version-outer order: the pair (versions[i], bases[j]) sits at i * |bases| + j. */
  lemma {:induction false} ProductAt(versions: seq<string>, bases: seq<string>, i: nat, j: nat)
    requires i < |versions| && j < |bases|
    ensures i * |bases| + j < |Product(versions, bases)|
    ensures Product(versions, bases)[i * |bases| + j] == (versions[i], bases[j])
  {
    var n := |versions| - 1;
    var prefix := Product(versions[..n], bases);
    assert Product(versions, bases) == prefix + Row(versions[n], bases);
    assert |prefix| == n * |bases|;
    if i < n {
      assert i * |bases| + j < (i + 1) * |bases| <= n * |bases| by {
        MulMonotone(i + 1, n, |bases|);
      }
      ProductAt(versions[..n], bases, i, j);
    } else {
      assert i * |bases| + j == |prefix| + j;
    }
  }

  lemma MulMonotone(a: nat, b: nat, m: nat)
    requires a <= b
    ensures a * m <= b * m
  {
  }

  /** Every element of the product pairs a version with a variant, and every
      such pair occurs. */
  lemma {:induction false} ProductMembership(versions: seq<string>, bases: seq<string>, v: string, b: string)
    ensures (v, b) in Product(versions, bases) <==> v in versions && b in bases
  {
    if versions != [] {
      var n := |versions| - 1;
      assert versions == versions[..n] + [versions[n]];
      ProductMembership(versions[..n], bases, v, b);
      var row := Row(versions[n], bases);
      assert (v, b) in row <==> v == versions[n] && b in bases by {
        if b in bases && v == versions[n] {
          var j :| 0 <= j < |bases| && bases[j] == b;
          assert row[j] == (v, b);
        }
      }
    }
  }

  /** With no repeated version and no repeated variant, no pair is planned twice. */
  lemma {:induction false} ProductDistinct(versions: seq<string>, bases: seq<string>)
    requires Distinct(versions) && Distinct(bases)
    ensures Distinct(Product(versions, bases))
  {
    if versions != [] {
      var n := |versions| - 1;
      var prefix := Product(versions[..n], bases);
      var row := Row(versions[n], bases);
      ProductDistinct(versions[..n], bases);
      var r := prefix + row;
      forall i, j | 0 <= i < j < |r|
        ensures r[i] != r[j]
      {
        if j >= |prefix| && i < |prefix| {
          var (v, b) := r[i];
          ProductMembership(versions[..n], bases, v, b);
          assert r[j].0 == versions[n];
          assert versions[n] !in versions[..n];
        }
      }
    }
  }

  /** A sequence without repetitions has as many elements as its set. */
  lemma {:induction false} DistinctCardinality<T>(s: seq<T>)
    requires Distinct(s)
    ensures |set x | x in s| == |s|
  {
    if s != [] {
      var n := |s| - 1;
      DistinctCardinality(s[..n]);
      assert (set x | x in s) == (set x | x in s[..n]) + {s[n]} by {
        assert s == s[..n] + [s[n]];
      }
      assert s[n] !in (set x | x in s[..n]);
    }
  }
}
