/** Types shared by every module of the model. */
module Prelude {

  datatype Option<+T> = None | Some(value: T) {
    function GetOr(default: T): T {
      match this
      case Some(v) => v
      case None => default
    }
  }

  /** One byte of a key, a value or an encoded operator state. */
  newtype byte = x: int | 0 <= x < 0x100

  type Bytes = seq<byte>

  /** The zero `time.Time` (January 1 of year 1) in nanoseconds since the Unix epoch. */
  const ZERO_TIME: int := -62135596800 * 1000000000
  const MIN_NANOS: int := -0x8000_0000_0000_0000
  const MAX_NANOS: int := 0x7fff_ffff_ffff_ffff

  /** A time that survives conversion to nanoseconds in an int64. */
  predicate Fits(t: int) { MIN_NANOS <= t <= MAX_NANOS }

  /** The int64 nanoseconds of an instant, wrapped around when it does not fit. */
  function UnixNano(t: int): (n: int)
    ensures Fits(n) && (n == t <==> Fits(t))
  {
    (t - MIN_NANOS) % 0x1_0000_0000_0000_0000 + MIN_NANOS
  }

  /** A time up to one turn above the int64 range. */
  lemma WrapsOnce(t: int)
    requires MAX_NANOS < t <= MAX_NANOS + 0x1_0000_0000_0000_0000
    ensures UnixNano(t) == t - 0x1_0000_0000_0000_0000
  {
  }

  /** A time up to one turn below it. */
  lemma WrapsUp(t: int)
    requires MIN_NANOS - 0x1_0000_0000_0000_0000 <= t < MIN_NANOS
    ensures UnixNano(t) == t + 0x1_0000_0000_0000_0000
  {
  }

  /** Times that differ by whole turns of the int64 range are stored alike. */
  lemma SameTurn(t: int, u: int)
    requires (t - u) % 0x1_0000_0000_0000_0000 == 0
    ensures UnixNano(t) == UnixNano(u)
  {
  }

  /** The int64 form of a time differs from it by whole turns. */
  lemma WholeTurns(t: int)
    ensures (t - UnixNano(t)) % 0x1_0000_0000_0000_0000 == 0
  {
  }

  function Max(a: int, b: int): int { if a > b then a else b }

  ghost predicate NoDup<T>(s: seq<T>) { forall i, j :: 0 <= i < j < |s| ==> s[i] != s[j] }

  lemma Assoc<T>(a: seq<T>, b: seq<T>, c: seq<T>)
    ensures (a + b) + c == a + (b + c)
  {
  }

  /** A sequence without repetitions that lists members of a set is no longer than the set. */
  lemma {:induction false} DistinctWithin<T>(s: seq<T>, t: set<T>)
    requires NoDup(s)
    requires forall i :: 0 <= i < |s| ==> s[i] in t
    ensures |s| <= |t|
  {
    if s != [] {
      var x := s[|s| - 1];
      DistinctWithin(s[..|s| - 1], t - {x});
    }
  }

  /** The left fold of `fn` over `rs`, from the first record on. */
  function Foldl<R>(fn: (Option<Bytes>, R) -> Bytes, acc: Option<Bytes>, rs: seq<R>): Option<Bytes>
    decreases |rs|
  {
    if rs == [] then acc else Foldl(fn, Some(fn(acc, rs[0])), rs[1..])
  }

  lemma {:induction false} FoldlAppend<R>(fn: (Option<Bytes>, R) -> Bytes, acc: Option<Bytes>, rs: seq<R>, r: R)
    ensures Foldl(fn, acc, rs + [r]) == Some(fn(Foldl(fn, acc, rs), r))
    decreases |rs|
  {
    if rs == [] {
      assert rs + [r] == [r] && [r][1..] == [];
    } else {
      assert (rs + [r])[1..] == rs[1..] + [r];
      FoldlAppend(fn, Some(fn(acc, rs[0])), rs[1..], r);
    }
  }
}
