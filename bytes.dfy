/**
 * Byte strings: the big-endian integer encoding used for store keys and the
 * unfinished-match index (`sdk.Uint64ToBigEndian`, `binary.BigEndian`), and
 * the lexicographic order in which the key-value store iterates its keys.
 */
module Bytes {
  import opened GoInts

  /** An octet, kept as an integer so that byte arithmetic stays linear for the solver. */
  type Byte = x: int | 0 <= x < 256

  type Bytes = seq<Byte>

  function Pow256(n: nat): (r: nat)
    ensures r >= 1
  {
    if n == 0 then 1 else 256 * Pow256(n - 1)
  }

  lemma Pow256Eight()
    ensures Pow256(8) == TWO_64
  {
    assert Pow256(1) == 0x100;
    assert Pow256(2) == 0x1_0000;
    assert Pow256(4) == 0x1_0000_0000 by {
      assert Pow256(3) == 0x100_0000;
    }
    assert Pow256(6) == 0x1_0000_0000_0000 by {
      assert Pow256(5) == 0x100_0000_0000;
    }
    assert Pow256(7) == 0x100_0000_0000_0000;
  }

  /** The low `n` bytes of `u`, most significant byte first. */
  function BigEndian(u: nat, n: nat): (r: Bytes)
    ensures |r| == n
  {
    if n == 0 then [] else BigEndian(u / 256, n - 1) + [u % 256]
  }

  /** The number a big-endian byte string denotes. */
  function FromBigEndian(b: Bytes): (r: nat)
    ensures r < Pow256(|b|)
  {
    if b == [] then 0 else FromBigEndian(b[..|b| - 1]) * 256 + b[|b| - 1]
  }

  lemma {:induction false} FromBigEndianOfBigEndian(u: nat, n: nat)
    requires u < Pow256(n)
    ensures FromBigEndian(BigEndian(u, n)) == u
  {
    if n > 0 {
      var q, r := u / 256, u % 256;
      assert u == q * 256 + r;
      assert q < Pow256(n - 1);
      FromBigEndianOfBigEndian(q, n - 1);
      var b := BigEndian(u, n);
      assert b[..n - 1] == BigEndian(q, n - 1);
      assert b[n - 1] == r;
      assert FromBigEndian(b) == FromBigEndian(b[..n - 1]) * 256 + b[n - 1];
    }
  }

  lemma {:induction false} BigEndianOfFromBigEndian(b: Bytes)
    ensures BigEndian(FromBigEndian(b), |b|) == b
  {
    if b != [] {
      var n := |b|;
      var front := b[..n - 1];
      BigEndianOfFromBigEndian(front);
      var v := FromBigEndian(b);
      assert v / 256 == FromBigEndian(front);
      assert v % 256 == b[n - 1];
      assert b == front + [b[n - 1]];
    }
  }

  /** Two byte strings of one length are equal exactly when the numbers they denote are. */
  lemma FromBigEndianInjective(a: Bytes, b: Bytes)
    requires |a| == |b|
    ensures FromBigEndian(a) == FromBigEndian(b) <==> a == b
  {
    if FromBigEndian(a) == FromBigEndian(b) {
      BigEndianOfFromBigEndian(a);
      BigEndianOfFromBigEndian(b);
    }
  }

  /** `sdk.Uint64ToBigEndian` and `binary.BigEndian.PutUint64`. */
  function Uint64ToBigEndian(u: Uint64): (r: Bytes)
    ensures |r| == 8
  {
    BigEndian(u, 8)
  }

  /** `binary.BigEndian.Uint64`. */
  function BigEndianToUint64(b: Bytes): (u: Uint64)
    requires |b| == 8
  {
    Pow256Eight();
    FromBigEndian(b)
  }

  lemma Uint64BigEndianRoundTrip(u: Uint64)
    ensures BigEndianToUint64(Uint64ToBigEndian(u)) == u
  {
    Pow256Eight();
    FromBigEndianOfBigEndian(u, 8);
  }

  lemma BigEndianUint64RoundTrip(b: Bytes)
    requires |b| == 8
    ensures Uint64ToBigEndian(BigEndianToUint64(b)) == b
  {
    BigEndianOfFromBigEndian(b);
  }

  // ---------------------------------------------------------------------
  // Lexicographic order (Go's `bytes.Compare`), the store's key order.
  // ---------------------------------------------------------------------

  predicate LexLess(a: Bytes, b: Bytes)
  {
    if a == [] then b != []
    else if b == [] then false
    else a[0] < b[0] || (a[0] == b[0] && LexLess(a[1..], b[1..]))
  }

  predicate LexLe(a: Bytes, b: Bytes)
  {
    a == b || LexLess(a, b)
  }

  lemma {:induction false} LexIrreflexive(a: Bytes)
    ensures !LexLess(a, a)
  {
    if a != [] {
      LexIrreflexive(a[1..]);
    }
  }

  lemma {:induction false} LexAsymmetric(a: Bytes, b: Bytes)
    requires LexLess(a, b)
    ensures !LexLess(b, a)
  {
    if a != [] && b != [] && a[0] == b[0] {
      LexAsymmetric(a[1..], b[1..]);
    }
  }

  lemma {:induction false} LexTransitive(a: Bytes, b: Bytes, c: Bytes)
    requires LexLess(a, b) && LexLess(b, c)
    ensures LexLess(a, c)
  {
    if a != [] && a[0] == b[0] && b[0] == c[0] {
      LexTransitive(a[1..], b[1..], c[1..]);
    }
  }

  lemma {:induction false} LexTotal(a: Bytes, b: Bytes)
    requires a != b
    ensures LexLess(a, b) || LexLess(b, a)
  {
    if a != [] && b != [] && a[0] == b[0] {
      assert a == [a[0]] + a[1..] && b == [b[0]] + b[1..];
      LexTotal(a[1..], b[1..]);
    }
  }

  /** A common prefix does not change the order. */
  lemma {:induction false} LexCommonPrefix(p: Bytes, a: Bytes, b: Bytes)
    ensures LexLess(p + a, p + b) <==> LexLess(a, b)
  {
    if p == [] {
      assert p + a == a && p + b == b;
    } else {
      assert (p + a)[0] == p[0] == (p + b)[0];
      assert (p + a)[1..] == p[1..] + a;
      assert (p + b)[1..] == p[1..] + b;
      LexCommonPrefix(p[1..], a, b);
    }
  }

  /** A byte string never sorts after its own extensions. */
  lemma {:induction false} LexPrefixLe(p: Bytes, s: Bytes)
    ensures LexLe(p, p + s)
  {
    if p != [] && s != [] {
      assert (p + s)[1..] == p[1..] + s;
      LexPrefixLe(p[1..], s);
    }
  }

  /** For strings of one length, the order is decided by the front first and the last byte last. */
  lemma {:induction false} LexSnoc(a: Bytes, b: Bytes)
    requires |a| == |b| >= 1
    ensures LexLess(a, b) <==>
      LexLess(a[..|a| - 1], b[..|b| - 1]) || (a[..|a| - 1] == b[..|b| - 1] && a[|a| - 1] < b[|b| - 1])
  {
    var n := |a|;
    if n > 1 {
      LexSnoc(a[1..], b[1..]);
      assert a[1..][..n - 2] == a[..n - 1][1..];
      assert b[1..][..n - 2] == b[..n - 1][1..];
      assert a[..n - 1] == [a[0]] + a[..n - 1][1..];
      assert b[..n - 1] == [b[0]] + b[..n - 1][1..];
    }
  }

  /** On big-endian strings of one length, byte order is numeric order. */
  lemma {:induction false} BigEndianOrder(a: Bytes, b: Bytes)
    requires |a| == |b|
    ensures LexLess(a, b) <==> FromBigEndian(a) < FromBigEndian(b)
  {
    var n := |a|;
    if n > 0 {
      var a', b' := a[..n - 1], b[..n - 1];
      LexSnoc(a, b);
      BigEndianOrder(a', b');
      FromBigEndianInjective(a', b');
      NumericSnoc(FromBigEndian(a'), a[n - 1], FromBigEndian(b'), b[n - 1]);
    }
  }

  /** A string that sorts below one of its own length still does so when extended. */
  lemma {:induction false} LexExtendLeft(y: Bytes, z: Bytes, x: Bytes)
    requires |y| == |x| && LexLess(y, x)
    ensures LexLess(y + z, x)
  {
    assert y != [];
    assert (y + z)[0] == y[0];
    if y[0] == x[0] {
      assert (y + z)[1..] == y[1..] + z;
      LexExtendLeft(y[1..], z, x[1..]);
    }
  }

  lemma NumericSnoc(p: nat, x: nat, q: nat, y: nat)
    requires x < 256 && y < 256
    ensures p * 256 + x < q * 256 + y <==> p < q || (p == q && x < y)
  {
  }

  // ---------------------------------------------------------------------
  // Sets of keys in ascending order: what a store iterator walks.
  // ---------------------------------------------------------------------

  predicate IsLeast(m: Bytes, s: set<Bytes>)
  {
    m in s && forall k :: k in s ==> LexLe(m, k)
  }

  lemma {:induction false} LeastExists(s: set<Bytes>)
    requires s != {}
    ensures exists m :: IsLeast(m, s)
    decreases |s|
  {
    var x :| x in s;
    if s == {x} {
      assert IsLeast(x, s);
    } else {
      var rest := s - {x};
      LeastExists(rest);
      var m :| IsLeast(m, rest);
      if LexLess(x, m) {
        forall k | k in s
          ensures LexLe(x, k)
        {
          if k != x && k != m {
            assert k in rest;
            assert LexLess(m, k);
            LexTransitive(x, m, k);
          }
        }
        assert IsLeast(x, s);
      } else {
        LexTotal(x, m);
        assert IsLeast(m, s);
      }
    }
  }

  lemma LeastUnique(m1: Bytes, m2: Bytes, s: set<Bytes>)
    requires IsLeast(m1, s) && IsLeast(m2, s)
    ensures m1 == m2
  {
    if m1 != m2 {
      LexAsymmetric(m1, m2);
    }
  }

  predicate StrictlyAscending(r: seq<Bytes>)
  {
    forall i, j :: 0 <= i < j < |r| ==> LexLess(r[i], r[j])
  }

  /** The elements of `s` in ascending order, each once. */
  ghost function Ascending(s: set<Bytes>): (r: seq<Bytes>)
    ensures |r| == |s|
    ensures forall k :: k in r <==> k in s
    ensures StrictlyAscending(r)
    decreases |s|
  {
    if s == {} then []
    else
      LeastExists(s);
      var m :| IsLeast(m, s);
      var rest := Ascending(s - {m});
      assert forall j :: 0 <= j < |rest| ==> LexLess(m, rest[j]) by {
        forall j | 0 <= j < |rest|
          ensures LexLess(m, rest[j])
        {
          assert rest[j] in s - {m};
        }
      }
      [m] + rest
  }

  lemma AscendingUnfold(s: set<Bytes>, m: Bytes)
    requires IsLeast(m, s)
    ensures Ascending(s) == [m] + Ascending(s - {m})
  {
    var r := Ascending(s);
    assert IsLeast(r[0], s) by {
      forall k | k in s
        ensures LexLe(r[0], k)
      {
        var j :| 0 <= j < |r| && r[j] == k;
      }
    }
    LeastUnique(r[0], m, s);
  }
}
