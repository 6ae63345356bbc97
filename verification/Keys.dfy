/** Byte keys of the key-value store: big-endian numbers and the order iterators follow. */
module Keys {

  type Byte = x: int | 0 <= x < 256

  type Bytes = seq<Byte>

  function Pow256(w: nat): nat { if w == 0 then 1 else 256 * Pow256(w - 1) }

  /** The low `w` bytes of `n`, most significant first. */
  function BigEndian(n: nat, w: nat): (r: Bytes)
    ensures |r| == w
  {
    if w == 0 then [] else BigEndian(n / 256, w - 1) + [n % 256]
  }

  /** `bytes.Compare(a, b) < 0`. */
  predicate Before(a: Bytes, b: Bytes) {
    if b == [] then false
    else if a == [] then true
    else a[0] < b[0] || (a[0] == b[0] && Before(a[1..], b[1..]))
  }

  /** An iterator's order: strictly ascending. */
  ghost predicate Ascending(keys: seq<Bytes>) {
    forall i, j :: 0 <= i < j < |keys| ==> Before(keys[i], keys[j])
  }

  lemma {:induction false} BeforeTransitive(a: Bytes, b: Bytes, c: Bytes)
    requires Before(a, b) && Before(b, c)
    ensures Before(a, c)
    decreases |a|
  {
    if a != [] && a[0] == b[0] && b[0] == c[0] {
      BeforeTransitive(a[1..], b[1..], c[1..]);
    }
  }

  lemma {:induction false} BeforeIsStrictTotal(a: Bytes, b: Bytes)
    ensures !(Before(a, b) && Before(b, a))
    ensures Before(a, b) || Before(b, a) || a == b
    ensures !Before(a, a)
    decreases |a|
  {
    if a != [] && b != [] && a[0] == b[0] {
      BeforeIsStrictTotal(a[1..], b[1..]);
      assert a == [a[0]] + a[1..] && b == [b[0]] + b[1..];
    }
    if a != [] {
      BeforeIsStrictTotal(a[1..], a[1..]);
    }
  }

  lemma {:induction false} BeforeAppend(x: Bytes, s: Bytes, y: Bytes, t: Bytes)
    requires |x| == |y|
    ensures Before(x + s, y + t) <==> Before(x, y) || (x == y && Before(s, t))
    decreases |x|
  {
    if x == [] {
      assert x + s == s && y + t == t;
    } else {
      assert (x + s)[1..] == x[1..] + s && (y + t)[1..] == y[1..] + t;
      BeforeAppend(x[1..], s, y[1..], t);
      assert x == y <==> x[0] == y[0] && x[1..] == y[1..];
    }
  }

  /** Big-endian encoding turns numeric order into byte order. */
  lemma {:induction false} BigEndianOrder(m: nat, n: nat, w: nat)
    requires m < Pow256(w) && n < Pow256(w)
    ensures Before(BigEndian(m, w), BigEndian(n, w)) <==> m < n
    ensures BigEndian(m, w) == BigEndian(n, w) <==> m == n
    decreases w
  {
    if w > 0 {
      BigEndianOrder(m / 256, n / 256, w - 1);
      var a, b := BigEndian(m / 256, w - 1), BigEndian(n / 256, w - 1);
      BeforeAppend(a, [m % 256], b, [n % 256]);
      assert BigEndian(m, w)[..w - 1] == a && BigEndian(n, w)[..w - 1] == b;
      assert BigEndian(m, w)[w - 1] == m % 256 && BigEndian(n, w)[w - 1] == n % 256;
      assert m == 256 * (m / 256) + m % 256 && n == 256 * (n / 256) + n % 256;
    }
  }

  /** A number followed by a suffix: ordered by the number first. */
  lemma NumberedKeyOrder(m: nat, s: Bytes, n: nat, t: Bytes)
    requires m < Pow256(8) && n < Pow256(8)
    ensures Before(BigEndian(m, 8) + s, BigEndian(n, 8) + t) <==> m < n || (m == n && Before(s, t))
    ensures BigEndian(m, 8) + s == BigEndian(n, 8) + t <==> m == n && s == t
  {
    var x, y := BigEndian(m, 8), BigEndian(n, 8);
    BigEndianOrder(m, n, 8);
    BeforeAppend(x, s, y, t);
    assert (x + s)[..8] == x && (y + t)[..8] == y && (x + s)[8..] == s && (y + t)[8..] == t;
  }
}
