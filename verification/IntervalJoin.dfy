/** The interval join over two buffered sides. */
module IntervalJoin {
  import opened Prelude

  datatype Side = Left | Right

  /** A record; `n` is its place in the input, which the operator never looks at. */
  datatype JRec = JRec(source: string, key: string, ts: int, value: Bytes, n: nat)

  datatype Config = Config(leftSource: string, rightSource: string, before: nat, after: nat) {
    function SideOf(source: string): Option<Side> {
      if source == leftSource then Some(Left) else if source == rightSource then Some(Right) else None
    }

    predicate InRange(leftTs: int, rightTs: int) {
      leftTs - before <= rightTs <= leftTs + after
    }

    /** How far behind the aligned watermark a side's records are kept. */
    function Slack(side: Side): nat { if side.Left? then after else before }
  }

  type Buffer = map<string, seq<JRec>>

  datatype Out = Pair(l: JRec, r: JRec) | Mark(t: int)

  datatype State = State(left: Buffer, right: Buffer, leftWm: int, rightWm: int, emitted: int, out: seq<Out>)

  function Init(): State { State(map[], map[], ZERO_TIME, ZERO_TIME, ZERO_TIME, []) }

  datatype Event = Record(r: JRec) | Watermark(source: string, t: int)

  /** The buffered copy of a record, which holds its time as int64 nanoseconds. */
  function Kept(r: JRec): JRec { r.(ts := UnixNano(r.ts)) }

  function Of(b: Buffer, key: string): seq<JRec> { if key in b then b[key] else [] }

  function Add(b: Buffer, r: JRec): Buffer { b[r.key := Of(b, r.key) + [r]] }

  /** The matches of `r` among `others`, in their order. */
  function Matches(c: Config, r: JRec, others: seq<JRec>, othersLeft: bool): seq<Out> {
    if others == [] then []
    else
      var o := others[|others| - 1];
      var p := if othersLeft then Pair(o, r) else Pair(r, o);
      Matches(c, r, others[..|others| - 1], othersLeft) + if c.InRange(p.l.ts, p.r.ts) then [p] else []
  }

  function OnRecord(c: Config, s: State, r: JRec): State {
    match c.SideOf(r.source)
    case None => s
    case Some(Left) => s.(left := Add(s.left, Kept(r)), out := s.out + Matches(c, r, Of(s.right, r.key), false))
    case Some(Right) => s.(right := Add(s.right, Kept(r)), out := s.out + Matches(c, r, Of(s.left, r.key), true))
  }

  function Aligned(a: int, b: int): int {
    if a == ZERO_TIME || b == ZERO_TIME then ZERO_TIME else if a < b then a else b
  }

  function Keep(recs: seq<JRec>, cutoff: int): seq<JRec> {
    if recs == [] then []
    else Keep(recs[..|recs| - 1], cutoff) + if recs[|recs| - 1].ts >= cutoff then [recs[|recs| - 1]] else []
  }

  /** What eviction leaves of a side; a key without records disappears. */
  function Evicted(b: Buffer, cutoff: int): Buffer {
    map k | k in b && Keep(b[k], cutoff) != [] :: Keep(b[k], cutoff)
  }

  predicate Known(c: Config, source: string) {
    source == c.leftSource || source == c.rightSource || source == ""
  }

  /** Which sides a watermark of this source advances. */
  predicate Advances(c: Config, source: string, side: Side) {
    if source == c.leftSource then side.Left? else if source == c.rightSource then side.Right? else source == ""
  }

  function Advanced(c: Config, s: State, source: string, t: int): State {
    s.(leftWm := if Advances(c, source, Left) then Max(s.leftWm, t) else s.leftWm,
       rightWm := if Advances(c, source, Right) then Max(s.rightWm, t) else s.rightWm)
  }

  /** The aligned watermark, once it is set, evicts both sides and is sent on if it has moved. */
  function Swept(c: Config, s: State, aligned: int): State {
    if aligned == ZERO_TIME then s
    else
      var s1 := s.(left := Evicted(s.left, aligned - c.Slack(Left)), right := Evicted(s.right, aligned - c.Slack(Right)));
      if aligned > s.emitted then s1.(emitted := aligned, out := s.out + [Mark(aligned)]) else s1
  }

  function OnWatermark(c: Config, s: State, source: string, t: int): State {
    if !Known(c, source) then s
    else
      var s1 := Advanced(c, s, source, t);
      Swept(c, s1, Aligned(s1.leftWm, s1.rightWm))
  }

  function Step(c: Config, s: State, e: Event): State {
    match e
    case Record(r) => OnRecord(c, s, r)
    case Watermark(source, t) => OnWatermark(c, s, source, t)
  }

  function Run(c: Config, es: seq<Event>): State {
    if es == [] then Init() else Step(c, Run(c, es[..|es| - 1]), es[|es| - 1])
  }

  // ---- The operator -----------------------------------------------------------------------

  class JoinOperator {
    const c: Config
    var left: Buffer
    var right: Buffer
    var leftWm: int
    var rightWm: int
    var emitted: int
    var out: seq<Out>

    ghost function View(): State
      reads this
    {
      State(left, right, leftWm, rightWm, emitted, out)
    }

    constructor (c: Config)
      ensures this.c == c && View() == Init()
    {
      this.c := c;
      left, right, leftWm, rightWm, emitted, out := map[], map[], ZERO_TIME, ZERO_TIME, ZERO_TIME, [];
    }

    method HandleRecord(r: JRec)
      modifies this`left, this`right, this`out
      ensures View() == OnRecord(c, old(View()), r)
    {
      var side := c.SideOf(r.source);
      if side.None? {
        return;
      }
      if side.value.Left? {
        EmitMatches(r, Of(right, r.key), false);
        left := left[r.key := Of(left, r.key) + [Kept(r)]];
        return;
      }
      EmitMatches(r, Of(left, r.key), true);
      right := right[r.key := Of(right, r.key) + [Kept(r)]];
    }

    method EmitMatches(r: JRec, others: seq<JRec>, otherIsLeft: bool)
      modifies this`out
      ensures out == old(out) + Matches(c, r, others, otherIsLeft)
    {
      for i := 0 to |others|
        invariant out == old(out) + Matches(c, r, others[..i], otherIsLeft)
      {
        assert others[..i + 1][..i] == others[..i];
        var l, q := r, others[i];
        if otherIsLeft {
          l, q := others[i], r;
        }
        if c.InRange(l.ts, q.ts) {
          out := out + [Pair(l, q)];
        }
      }
      assert others[..|others|] == others;
    }

    /** The switch on the watermark's source; `known` is false for a source that is neither side's. */
    method AdvanceSides(source: string, t: int) returns (known: bool)
      modifies this`leftWm, this`rightWm
      ensures known == Known(c, source)
      ensures leftWm == if Advances(c, source, Left) then Max(old(leftWm), t) else old(leftWm)
      ensures rightWm == if Advances(c, source, Right) then Max(old(rightWm), t) else old(rightWm)
    {
      if source == c.leftSource {
        if t > leftWm { leftWm := t; }
      } else if source == c.rightSource {
        if t > rightWm { rightWm := t; }
      } else if source == "" {
        if t > leftWm { leftWm := t; }
        if t > rightWm { rightWm := t; }
      } else {
        return false;
      }
      return true;
    }

    method HandleWatermark(source: string, t: int)
      modifies this
      ensures View() == OnWatermark(c, old(View()), source, t)
    {
      var known := AdvanceSides(source, t);
      if !known {
        return;
      }
      Sweep(Aligned(leftWm, rightWm));
    }

    method Sweep(aligned: int)
      modifies this
      ensures View() == Swept(c, old(View()), aligned)
    {
      if aligned == ZERO_TIME {
        return;
      }
      left := EvictSide(left, aligned - c.after);
      right := EvictSide(right, aligned - c.before);
      if aligned > emitted {
        emitted := aligned;
        out := out + [Mark(aligned)];
      }
    }
  }

  /** Eviction of one side, key by key in no particular order. */
  method EvictSide(b: Buffer, cutoff: int) returns (r: Buffer)
    ensures r == Evicted(b, cutoff)
  {
    r := b;
    var rest := b.Keys;
    while rest != {}
      invariant rest <= b.Keys
      invariant forall k :: k in r <==> k in b && (k in rest || Keep(b[k], cutoff) != [])
      invariant forall k :: k in r ==> r[k] == if k in rest then b[k] else Keep(b[k], cutoff)
      decreases |rest|
    {
      var key :| key in rest;
      var keep := KeepList(r[key], cutoff);
      r := Replace(r, key, keep);
      rest := rest - {key};
    }
  }

  /** Clear a key and append what is kept of it, record by record. */
  method Replace(b: Buffer, key: string, keep: seq<JRec>) returns (r: Buffer)
    ensures r == if keep == [] then b - {key} else b[key := keep]
  {
    r := b - {key};
    for i := 0 to |keep|
      invariant r == if i == 0 then b - {key} else b[key := keep[..i]]
    {
      assert keep[..i + 1] == keep[..i] + [keep[i]];
      r := r[key := Of(r, key) + [keep[i]]];
    }
    assert keep[..|keep|] == keep;
  }

  method KeepList(recs: seq<JRec>, cutoff: int) returns (keep: seq<JRec>)
    ensures keep == Keep(recs, cutoff)
  {
    keep := [];
    for i := 0 to |recs|
      invariant keep == Keep(recs[..i], cutoff)
    {
      assert recs[..i + 1][..i] == recs[..i];
      if !(recs[i].ts < cutoff) {
        keep := keep + [recs[i]];
      }
    }
    assert recs[..|recs|] == recs;
  }
}
