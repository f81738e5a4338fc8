/** Byte strings in lexicographic order. */
module ByteOrder {
  import opened Prelude

  predicate Less(a: Bytes, b: Bytes) {
    if b == [] then false
    else if a == [] then true
    else if a[0] != b[0] then a[0] < b[0]
    else Less(a[1..], b[1..])
  }

  lemma {:induction false} LessTotal(a: Bytes, b: Bytes)
    ensures a == b || Less(a, b) || Less(b, a)
    ensures !(Less(a, b) && Less(b, a)) && (a == b ==> !Less(a, b))
  {
    if a != [] && b != [] {
      LessTotal(a[1..], b[1..]);
      if a[0] == b[0] && a[1..] == b[1..] {
        assert a == [a[0]] + a[1..] && b == [b[0]] + b[1..];
      }
    }
  }

  lemma {:induction false} LessTrans(a: Bytes, b: Bytes, c: Bytes)
    requires Less(a, b) && Less(b, c)
    ensures Less(a, c)
  {
    if a != [] && a[0] == b[0] && b[0] == c[0] {
      LessTrans(a[1..], b[1..], c[1..]);
    }
  }

  lemma {:induction false} LessPrefix(p: Bytes, x: Bytes, y: Bytes)
    ensures Less(p + x, p + y) <==> Less(x, y)
  {
    if p == [] {
      assert p + x == x && p + y == y;
    } else {
      LessPrefix(p[1..], x, y);
      assert (p + x)[1..] == p[1..] + x && (p + y)[1..] == p[1..] + y;
    }
  }

  /** A difference within equally long heads decides. */
  lemma {:induction false} LessHead(x: Bytes, y: Bytes, p: Bytes, q: Bytes)
    requires |x| == |y| && Less(x, y)
    ensures Less(x + p, y + q)
  {
    if x[0] == y[0] {
      LessHead(x[1..], y[1..], p, q);
      assert (x + p)[1..] == x[1..] + p && (y + q)[1..] == y[1..] + q;
    }
  }

  // ---- Big-endian integers ------------------------------------------------------------

  function Pow256(w: nat): nat { if w == 0 then 1 else 256 * Pow256(w - 1) }

  /** The low `w` bytes of `n`, most significant first. */
  function BigEndian(n: nat, w: nat): (b: Bytes)
    ensures |b| == w
  {
    if w == 0 then [] else BigEndian(n / 256, w - 1) + [(n % 256) as byte]
  }

  function FromBigEndian(b: Bytes): nat {
    if b == [] then 0 else 256 * FromBigEndian(b[..|b| - 1]) + b[|b| - 1] as nat
  }

  lemma {:induction false} RoundTrip(n: nat, w: nat)
    requires n < Pow256(w)
    ensures FromBigEndian(BigEndian(n, w)) == n
  {
    if w > 0 {
      RoundTrip(n / 256, w - 1);
      var b := BigEndian(n, w);
      assert b[..w - 1] == BigEndian(n / 256, w - 1);
    }
  }

  /** The byte order of the encodings is the order of the numbers. */
  lemma {:induction false} OrderKept(m: nat, n: nat, w: nat)
    requires m < n < Pow256(w)
    ensures Less(BigEndian(m, w), BigEndian(n, w))
  {
    var x, y := BigEndian(m / 256, w - 1), BigEndian(n / 256, w - 1);
    if m / 256 < n / 256 {
      OrderKept(m / 256, n / 256, w - 1);
      LessHead(x, y, [(m % 256) as byte], [(n % 256) as byte]);
    } else {
      LessPrefix(x, [(m % 256) as byte], [(n % 256) as byte]);
    }
  }

  // ---- Prefix ranges -------------------------------------------------------------------

  predicate AtLeast(k: Bytes, lo: Bytes) { !Less(k, lo) }

  predicate Within(k: Bytes, lo: Bytes, hi: Bytes) { AtLeast(k, lo) && Less(k, hi) }

  /** `upper` bounds exactly the keys that start with `prefix`. */
  ghost predicate Bounds(prefix: Bytes, upper: Bytes) {
    forall k :: Within(k, prefix, upper) <==> prefix <= k
  }

  predicate HasRoom(prefix: Bytes) { exists i :: 0 <= i < |prefix| && prefix[i] < 0xff }

  /** What lies between a string and the string with its last byte incremented starts with the string. */
  lemma {:induction false} Increment(p: Bytes, b: byte, tail: Bytes, k: Bytes)
    requires b < 0xff && forall i :: 0 <= i < |tail| ==> tail[i] == 0xff
    ensures Within(k, p + [b] + tail, p + [b + 1]) <==> p + [b] + tail <= k
  {
    if p == [] {
      IncrementFirst(b, tail, k);
      assert p + [b] + tail == [b] + tail && p + [b + 1] == [b + 1];
    } else {
      assert (p + [b] + tail)[1..] == p[1..] + [b] + tail && (p + [b + 1])[1..] == p[1..] + [b + 1];
      if k != [] {
        Increment(p[1..], b, tail, k[1..]);
        if k[0] == p[0] {
          assert k == [k[0]] + k[1..] && p + [b] + tail == [p[0]] + (p[1..] + [b] + tail);
        }
      }
    }
  }

  lemma IncrementFirst(b: byte, tail: Bytes, k: Bytes)
    requires b < 0xff && forall i :: 0 <= i < |tail| ==> tail[i] == 0xff
    ensures Within(k, [b] + tail, [b + 1]) <==> [b] + tail <= k
  {
    if k != [] {
      var u := [b + 1];
      var t := [b] + tail;
      assert t[0] == b && t[1..] == tail && u[1..] == [];
      AllFull(tail, k[1..]);
      PrefixCons(b, tail, k);
      assert Less(k, t) <==> if k[0] != b then k[0] < b else Less(k[1..], tail);
      assert Less(k, u) <==> if k[0] != b + 1 then k[0] < b + 1 else Less(k[1..], []);
    }
  }

  lemma PrefixCons(b: byte, tail: Bytes, k: Bytes)
    requires k != []
    ensures [b] + tail <= k <==> k[0] == b && tail <= k[1..]
  {
    assert k == [k[0]] + k[1..];
    var t := [b] + tail;
    assert t[0] == b && t[1..] == tail;
    if t <= k {
      assert k[..|t|] == t && k[1..][..|tail|] == tail;
    }
  }

  /** Above a string of 0xff bytes there are only its extensions. */
  lemma {:induction false} AllFull(tail: Bytes, k: Bytes)
    requires forall i :: 0 <= i < |tail| ==> tail[i] == 0xff
    ensures AtLeast(k, tail) <==> tail <= k
  {
    if tail != [] && k != [] {
      AllFull(tail[1..], k[1..]);
      if k[0] == tail[0] {
        assert k == [k[0]] + k[1..] && tail == [tail[0]] + tail[1..];
      }
    }
  }

  /** A copy of the prefix with its last byte below 0xff incremented and the rest cut off. */
  method PrefixUpperBound(prefix: Bytes) returns (r: Bytes)
    ensures HasRoom(prefix) ==> Bounds(prefix, r)
    ensures !HasRoom(prefix) ==> r == prefix + [0xff]
  {
    var upper := new byte[|prefix|](i requires 0 <= i < |prefix| => prefix[i]);
    var i := |prefix| - 1;
    while i >= 0
      invariant -1 <= i < |prefix|
      invariant upper[..] == prefix
      invariant forall j :: i < j < |prefix| ==> prefix[j] == 0xff
    {
      if upper[i] < 0xff {
        ghost var p, b, tail := prefix[..i], prefix[i], prefix[i + 1..];
        upper[i] := upper[i] + 1;
        assert prefix == p + [b] + tail && upper[..i + 1] == p + [b + 1];
        r := upper[..i + 1];
        forall k ensures Within(k, prefix, r) <==> prefix <= k {
          Increment(p, b, tail, k);
        }
        return;
      }
      i := i - 1;
    }
    return prefix + [0xff];
  }

  /** The bound of a prefix without room misses keys, so it is exact if and only if some byte is below 0xff. */
  lemma NoRoom(prefix: Bytes)
    requires !HasRoom(prefix)
    ensures !Bounds(prefix, prefix + [0xff])
  {
    var k := prefix + [0xff];
    LessTotal(k, k);
    assert prefix <= k && !Within(k, prefix, k);
  }
}
