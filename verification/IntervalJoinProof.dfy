/** The interval join against the nested-loop join. */
module IntervalJoinProof {
  import opened Prelude
  import opened IntervalJoin

  // ---- The reference ------------------------------------------------------------------

  /** Records carry their place in the input. */
  ghost predicate Numbered(es: seq<Event>) {
    forall i :: 0 <= i < |es| && es[i].Record? ==> es[i].r.n == i
  }

  /** Records of this source belong to `side`. */
  predicate On(c: Config, source: string, side: Side) {
    if side.Left? then source == c.leftSource else source == c.rightSource && source != c.leftSource
  }

  ghost predicate Arrived(c: Config, es: seq<Event>, r: JRec, side: Side) {
    r.n < |es| && es[r.n] == Record(r) && On(c, r.source, side)
  }

  /** `x` is the buffered copy of a record that arrived on `side`. */
  ghost predicate Stored(c: Config, es: seq<Event>, x: JRec, side: Side) {
    x.n < |es| && es[x.n].Record? && x == Kept(es[x.n].r) && On(c, x.source, side)
  }

  /** A watermark of this source is one of `side`: its own source's, or one without a source. */
  predicate Names(c: Config, source: string, side: Side) {
    On(c, source, side) || (source == "" && c.leftSource != "" && c.rightSource != "")
  }

  /** The greatest watermark of `side` in `es`, or the zero time. */
  function SideMark(c: Config, es: seq<Event>, side: Side): int {
    if es == [] then ZERO_TIME
    else
      var m, e := SideMark(c, es[..|es| - 1], side), es[|es| - 1];
      if e.Watermark? && Names(c, e.source, side) && e.t > m then e.t else m
  }

  /** The smaller of both sides' watermarks, once both are set. */
  function LeastMark(c: Config, es: seq<Event>): int {
    var a, b := SideMark(c, es, Left), SideMark(c, es, Right);
    if a == ZERO_TIME || b == ZERO_TIME then ZERO_TIME else if a <= b then a else b
  }

  /** The aligned watermark behind each event. */
  function AlignedBehind(c: Config, es: seq<Event>): (al: seq<int>)
    ensures |al| == |es|
  {
    if es == [] then [] else AlignedBehind(c, es[..|es| - 1]) + [LeastMark(c, es)]
  }

  lemma {:induction false} RunMarks(c: Config, es: seq<Event>)
    ensures Run(c, es).leftWm == SideMark(c, es, Left) && Run(c, es).rightWm == SideMark(c, es, Right)
    ensures LeastMark(c, es) == Aligned(Run(c, es).leftWm, Run(c, es).rightWm)
  {
    if es != [] {
      RunMarks(c, es[..|es| - 1]);
      StepMarked(c, Run(c, es[..|es| - 1]), es[|es| - 1]);
    }
  }

  lemma StepMarked(c: Config, s: State, e: Event)
    ensures Step(c, s, e).leftWm == (if e.Watermark? && Names(c, e.source, Left) && e.t > s.leftWm then e.t else s.leftWm)
    ensures Step(c, s, e).rightWm == (if e.Watermark? && Names(c, e.source, Right) && e.t > s.rightWm then e.t else s.rightWm)
  {
  }

  /** The event at `m` evicts a record of `side` with time `ts`, if it is buffered then. */
  predicate Evicts(c: Config, es: seq<Event>, al: seq<int>, m: nat, side: Side, ts: int) {
    && m < |es| && m < |al| && es[m].Watermark? && (es[m].source == c.leftSource || es[m].source == c.rightSource || es[m].source == "")
    && al[m] != ZERO_TIME && ts < al[m] - (if side.Left? then c.after else c.before)
  }

  /** No event between the arrival of a record and place `n` has evicted its copy `r`. */
  ghost predicate Alive(c: Config, es: seq<Event>, al: seq<int>, r: JRec, side: Side, n: nat) {
    forall m: nat :: r.n < m < n ==> !Evicts(c, es, al, m, side, r.ts)
  }

  /** An in-range pair of one key. */
  ghost predicate NestedLoop(c: Config, es: seq<Event>, l: JRec, r: JRec) {
    Arrived(c, es, l, Left) && Arrived(c, es, r, Right) && l.key == r.key && l.ts - c.before <= r.ts <= l.ts + c.after
  }

  /** What the operator compares: the later record itself and the buffered copy of the earlier one. */
  ghost predicate Meets(c: Config, es: seq<Event>, l: JRec, r: JRec) {
    && l.key == r.key && l.ts - c.before <= r.ts <= l.ts + c.after
    && if l.n < r.n then Stored(c, es, l, Left) && Arrived(c, es, r, Right) else Arrived(c, es, l, Left) && Stored(c, es, r, Right)
  }

  /** A pair whose earlier record was still buffered when the later one arrived. */
  ghost predicate Joined(c: Config, es: seq<Event>, al: seq<int>, l: JRec, r: JRec) {
    Meets(c, es, l, r) && if l.n < r.n then Alive(c, es, al, l, Left, r.n) else Alive(c, es, al, r, Right, l.n)
  }

  // ---- Lists -----------------------------------------------------------------------------

  lemma {:induction false} KeepIn(recs: seq<JRec>, cutoff: int)
    ensures forall r :: r in Keep(recs, cutoff) <==> r in recs && r.ts >= cutoff
    ensures NoDup(recs) ==> NoDup(Keep(recs, cutoff))
  {
    if recs != [] {
      KeepIn(recs[..|recs| - 1], cutoff);
      assert recs == recs[..|recs| - 1] + [recs[|recs| - 1]];
    }
  }

  /** The pair that a record and a buffered record make. */
  function PairOf(r: JRec, o: JRec, otherLeft: bool): Out {
    if otherLeft then Pair(o, r) else Pair(r, o)
  }

  lemma {:induction false} MatchesIn(c: Config, r: JRec, others: seq<JRec>, othersLeft: bool)
    ensures forall o :: PairOf(r, o, othersLeft) in Matches(c, r, others, othersLeft) <==>
              o in others && c.InRange(PairOf(r, o, othersLeft).l.ts, PairOf(r, o, othersLeft).r.ts)
    ensures forall p :: p in Matches(c, r, others, othersLeft) ==>
              p.Pair? && exists o :: o in others && p == PairOf(r, o, othersLeft)
    ensures NoDup(others) ==> NoDup(Matches(c, r, others, othersLeft))
  {
    if others != [] {
      var rest, o := others[..|others| - 1], others[|others| - 1];
      assert others == rest + [o];
      MatchesIn(c, r, rest, othersLeft);
      var p := PairOf(r, o, othersLeft);
      var ms := Matches(c, r, rest, othersLeft);
      assert Matches(c, r, others, othersLeft) == ms + if c.InRange(p.l.ts, p.r.ts) then [p] else [];
      if NoDup(others) {
        assert o !in rest;
        assert p !in ms;
      }
    }
  }

  // ---- Buffers --------------------------------------------------------------------------

  ghost predicate Buffered(c: Config, es: seq<Event>, al: seq<int>, b: Buffer, side: Side) {
    && (forall k, r :: r in Of(b, k) <==> Stored(c, es, r, side) && r.key == k && Alive(c, es, al, r, side, |es|))
    && (forall k :: NoDup(Of(b, k)))
  }

  lemma AliveNext(c: Config, es: seq<Event>, al: seq<int>, e: Event, a: int, r: JRec, side: Side, n: nat)
    requires n <= |es| == |al|
    ensures Alive(c, es + [e], al + [a], r, side, n) <==> Alive(c, es, al, r, side, n)
    ensures r.n < |es| ==> (Alive(c, es + [e], al + [a], r, side, |es| + 1) <==>
              Alive(c, es, al, r, side, |es|) && !Evicts(c, es + [e], al + [a], |es|, side, r.ts))
  {
    forall m: nat | m < |es| ensures Evicts(c, es + [e], al + [a], m, side, r.ts) <==> Evicts(c, es, al, m, side, r.ts) {
    }
  }

  lemma ArrivedNext(c: Config, es: seq<Event>, e: Event, r: JRec, side: Side)
    ensures r.n < |es| ==> (Arrived(c, es + [e], r, side) <==> Arrived(c, es, r, side))
    ensures r.n >= |es| ==> (Arrived(c, es + [e], r, side) <==> r.n == |es| && e == Record(r) && On(c, r.source, side))
  {
  }

  lemma StoredNext(c: Config, es: seq<Event>, e: Event, x: JRec, side: Side)
    ensures x.n < |es| ==> (Stored(c, es + [e], x, side) <==> Stored(c, es, x, side))
    ensures x.n >= |es| ==> (Stored(c, es + [e], x, side) <==>
              x.n == |es| && e.Record? && x == Kept(e.r) && On(c, x.source, side))
  {
  }

  lemma RecordBuffered(c: Config, es: seq<Event>, al: seq<int>, x: JRec, a: int, b: Buffer, side: Side)
    requires Buffered(c, es, al, b, side) && x.n == |es| == |al|
    ensures Buffered(c, es + [Record(x)], al + [a], if c.SideOf(x.source) == Some(side) then Add(b, Kept(x)) else b, side)
  {
    var es', al' := es + [Record(x)], al + [a];
    var mine := c.SideOf(x.source) == Some(side);
    var b' := if mine then Add(b, Kept(x)) else b;
    forall k ensures Kept(x) !in Of(b, k) {
    }
    forall k, r ensures r in Of(b', k) <==> Stored(c, es', r, side) && r.key == k && Alive(c, es', al', r, side, |es'|) {
      AliveNext(c, es, al, Record(x), a, r, side, |es|);
      StoredNext(c, es, Record(x), r, side);
      assert r in Of(b', k) <==> r in Of(b, k) || (mine && r == Kept(x) && k == x.key);
    }
    forall k ensures NoDup(Of(b', k)) {
      assert Of(b', k) == if mine && k == x.key then Of(b, k) + [Kept(x)] else Of(b, k);
    }
    assert Buffered(c, es', al', b', side);
  }

  /** What a watermark leaves of a side. */
  function Remaining(c: Config, source: string, a: int, b: Buffer, side: Side): Buffer {
    if Known(c, source) && a != ZERO_TIME then Evicted(b, a - c.Slack(side)) else b
  }

  /** Whether a record survives a watermark on its side. */
  predicate Stays(c: Config, source: string, a: int, side: Side, r: JRec) {
    !Known(c, source) || a == ZERO_TIME || r.ts >= a - c.Slack(side)
  }

  /** `y` is what a watermark leaves of the list `x`. */
  ghost predicate LeavesOf(c: Config, source: string, a: int, x: seq<JRec>, y: seq<JRec>, side: Side) {
    && (forall r :: r in y <==> r in x && Stays(c, source, a, side, r))
    && (NoDup(x) ==> NoDup(y))
  }

  ghost predicate Leaves(c: Config, source: string, a: int, b: Buffer, b': Buffer, side: Side) {
    forall k :: LeavesOf(c, source, a, Of(b, k), Of(b', k), side)
  }

  lemma EvictedOf(b: Buffer, cutoff: int, k: string)
    ensures Of(Evicted(b, cutoff), k) == Keep(Of(b, k), cutoff)
  {
  }

  lemma RemainingOf(c: Config, source: string, a: int, b: Buffer, side: Side, k: string)
    ensures LeavesOf(c, source, a, Of(b, k), Of(Remaining(c, source, a, b, side), k), side)
  {
    if Known(c, source) && a != ZERO_TIME {
      RemainingEvicted(c, source, a, b, side, k);
    } else {
      LeavesAll(c, source, a, Of(b, k), side);
    }
  }

  lemma RemainingEvicted(c: Config, source: string, a: int, b: Buffer, side: Side, k: string)
    requires Known(c, source) && a != ZERO_TIME
    ensures LeavesOf(c, source, a, Of(b, k), Of(Remaining(c, source, a, b, side), k), side)
  {
    var cutoff := a - c.Slack(side);
    assert Remaining(c, source, a, b, side) == Evicted(b, cutoff);
    EvictedOf(b, cutoff, k);
    KeptLeaves(c, source, a, Of(b, k), side);
  }

  lemma LeavesAll(c: Config, source: string, a: int, x: seq<JRec>, side: Side)
    requires !Known(c, source) || a == ZERO_TIME
    ensures LeavesOf(c, source, a, x, x, side)
  {
  }

  lemma KeptLeaves(c: Config, source: string, a: int, x: seq<JRec>, side: Side)
    requires Known(c, source) && a != ZERO_TIME
    ensures LeavesOf(c, source, a, x, Keep(x, a - c.Slack(side)), side)
  {
    KeepIn(x, a - c.Slack(side));
  }

  lemma RemainingLeaves(c: Config, source: string, a: int, b: Buffer, side: Side)
    ensures Leaves(c, source, a, b, Remaining(c, source, a, b, side), side)
  {
    forall k ensures LeavesOf(c, source, a, Of(b, k), Of(Remaining(c, source, a, b, side), k), side) {
      RemainingOf(c, source, a, b, side, k);
    }
  }

  lemma EvictedAlive(c: Config, es: seq<Event>, al: seq<int>, source: string, t: int, a: int, side: Side, r: JRec)
    requires |es| == |al|
    ensures var es', al' := es + [Watermark(source, t)], al + [a];
            Stored(c, es', r, side) && Alive(c, es', al', r, side, |es'|) <==>
              && Stored(c, es, r, side) && Alive(c, es, al, r, side, |es|)
              && Stays(c, source, a, side, r)
  {
    var es', al' := es + [Watermark(source, t)], al + [a];
    assert Evicts(c, es', al', |es|, side, r.ts) <==> !Stays(c, source, a, side, r);
    AliveNext(c, es, al, Watermark(source, t), a, r, side, |es|);
    StoredNext(c, es, Watermark(source, t), r, side);
  }

  lemma EvictBuffered(c: Config, es: seq<Event>, al: seq<int>, source: string, t: int, a: int, b: Buffer, b': Buffer, side: Side)
    requires Buffered(c, es, al, b, side) && Leaves(c, source, a, b, b', side) && |es| == |al|
    ensures Buffered(c, es + [Watermark(source, t)], al + [a], b', side)
  {
    var es', al' := es + [Watermark(source, t)], al + [a];
    forall k, r ensures r in Of(b', k) <==> Stored(c, es', r, side) && r.key == k && Alive(c, es', al', r, side, |es'|) {
      assert LeavesOf(c, source, a, Of(b, k), Of(b', k), side);
      EvictedAlive(c, es, al, source, t, a, side, r);
    }
    forall k ensures NoDup(Of(b', k)) {
      assert LeavesOf(c, source, a, Of(b, k), Of(b', k), side);
    }
  }

  // ---- Output ----------------------------------------------------------------------------

  ghost predicate Produced(c: Config, es: seq<Event>, al: seq<int>, out: seq<Out>) {
    && (forall l, r :: Pair(l, r) in out <==> Joined(c, es, al, l, r))
    && (forall i, j :: 0 <= i < j < |out| && out[i].Pair? ==> out[i] != out[j])
  }

  /** Whether a pair is joined is settled when its later record arrives. */
  lemma JoinedNext(c: Config, es: seq<Event>, al: seq<int>, e: Event, a: int, l: JRec, r: JRec)
    requires l.n < |es| && r.n < |es| && |es| == |al|
    ensures Joined(c, es + [e], al + [a], l, r) <==> Joined(c, es, al, l, r)
  {
    AliveNext(c, es, al, e, a, l, Left, r.n);
    AliveNext(c, es, al, e, a, r, Right, l.n);
  }

  lemma NewPair(c: Config, es: seq<Event>, al: seq<int>, x: JRec, a: int, o: JRec, b: Buffer, otherLeft: bool)
    requires x.n == |es| == |al| && Buffered(c, es, al, b, if otherLeft then Left else Right)
    requires c.SideOf(x.source) == Some(if otherLeft then Right else Left)
    ensures var p := PairOf(x, o, otherLeft);
            Joined(c, es + [Record(x)], al + [a], p.l, p.r) <==> o in Of(b, x.key) && c.InRange(p.l.ts, p.r.ts)
  {
    var side := if otherLeft then Left else Right;
    StoredNext(c, es, Record(x), o, side);
    ArrivedNext(c, es, Record(x), x, if otherLeft then Right else Left);
    AliveNext(c, es, al, Record(x), a, o, side, |es|);
  }

  lemma OnlyNew(c: Config, es: seq<Event>, al: seq<int>, x: JRec, l: JRec, r: JRec)
    requires x.n == |es| && Joined(c, es + [Record(x)], al, l, r) && !(l.n < |es| && r.n < |es|)
    ensures if c.SideOf(x.source) == Some(Left) then l == x && r.n < |es| else r == x && l.n < |es| && c.SideOf(x.source) == Some(Right)
  {
    assert (es + [Record(x)])[|es|] == Record(x);
  }

  lemma NewOrOld(c: Config, es: seq<Event>, al: seq<int>, x: JRec, a: int, b: Buffer, otherLeft: bool, l: JRec, r: JRec)
    requires x.n == |es| == |al| && Buffered(c, es, al, b, if otherLeft then Left else Right)
    requires c.SideOf(x.source) == Some(if otherLeft then Right else Left)
    ensures l.n < |es| && r.n < |es| ==> Pair(l, r) !in Matches(c, x, Of(b, x.key), otherLeft)
    ensures !(l.n < |es| && r.n < |es|) ==>
              && !Joined(c, es, al, l, r)
              && (Joined(c, es + [Record(x)], al + [a], l, r) <==> Pair(l, r) in Matches(c, x, Of(b, x.key), otherLeft))
  {
    MatchesIn(c, x, Of(b, x.key), otherLeft);
    if !(l.n < |es| && r.n < |es|) {
      if Joined(c, es + [Record(x)], al + [a], l, r) {
        OnlyNew(c, es, al + [a], x, l, r);
      }
      if otherLeft {
        NewPair(c, es, al, x, a, l, b, true);
      } else {
        NewPair(c, es, al, x, a, r, b, false);
      }
    }
  }

  lemma RecordProduced(c: Config, es: seq<Event>, al: seq<int>, x: JRec, a: int, b: Buffer, out: seq<Out>, otherLeft: bool)
    requires x.n == |es| == |al| && Produced(c, es, al, out) && Buffered(c, es, al, b, if otherLeft then Left else Right)
    requires c.SideOf(x.source) == Some(if otherLeft then Right else Left)
    ensures Produced(c, es + [Record(x)], al + [a], out + Matches(c, x, Of(b, x.key), otherLeft))
  {
    var ms := Matches(c, x, Of(b, x.key), otherLeft);
    var out' := out + ms;
    MatchesIn(c, x, Of(b, x.key), otherLeft);
    forall l, r ensures Pair(l, r) in out' <==> Joined(c, es + [Record(x)], al + [a], l, r) {
      NewOrOld(c, es, al, x, a, b, otherLeft, l, r);
      if l.n < |es| && r.n < |es| {
        JoinedNext(c, es, al, Record(x), a, l, r);
      }
    }
    forall i, j | 0 <= i < j < |out'| && out'[i].Pair? ensures out'[i] != out'[j] {
      if i < |out| <= j {
        var p := out'[i];
        assert p in out && Joined(c, es, al, p.l, p.r);
        assert out'[j] in ms;
      }
    }
  }

  /** An event that brings no record to either side brings no pair. */
  lemma Unchanged(c: Config, es: seq<Event>, al: seq<int>, e: Event, a: int, out: seq<Out>, out': seq<Out>)
    requires |es| == |al| && Produced(c, es, al, out) && (e.Record? ==> e.r.n == |es| && c.SideOf(e.r.source).None?)
    requires out' == out || (|out'| == |out| + 1 && out'[..|out|] == out && out'[|out|].Mark?)
    ensures Produced(c, es + [e], al + [a], out')
  {
    forall l, r ensures Pair(l, r) in out' <==> Joined(c, es + [e], al + [a], l, r) {
      if l.n < |es| && r.n < |es| {
        JoinedNext(c, es, al, e, a, l, r);
      }
      assert Pair(l, r) in out' <==> Pair(l, r) in out;
    }
  }

  // ---- Whole runs --------------------------------------------------------------------------

  ghost predicate Exact(c: Config, es: seq<Event>, al: seq<int>, s: State) {
    Buffered(c, es, al, s.left, Left) && Buffered(c, es, al, s.right, Right) && Produced(c, es, al, s.out)
  }

  lemma RunNext(c: Config, es: seq<Event>, e: Event)
    ensures Run(c, es + [e]) == Step(c, Run(c, es), e)
    ensures AlignedBehind(c, es + [e]) == AlignedBehind(c, es) + [Aligned(Run(c, es + [e]).leftWm, Run(c, es + [e]).rightWm)]
  {
    assert (es + [e])[..|es|] == es;
    RunMarks(c, es + [e]);
  }

  lemma RecordExact(c: Config, es: seq<Event>, al: seq<int>, s: State, x: JRec, a: int)
    requires Exact(c, es, al, s) && x.n == |es| == |al|
    ensures Exact(c, es + [Record(x)], al + [a], OnRecord(c, s, x))
  {
    RecordBuffered(c, es, al, x, a, s.left, Left);
    RecordBuffered(c, es, al, x, a, s.right, Right);
    match c.SideOf(x.source)
    case Some(Left) => RecordProduced(c, es, al, x, a, s.right, s.out, false);
    case Some(Right) => RecordProduced(c, es, al, x, a, s.left, s.out, true);
    case None => Unchanged(c, es, al, Record(x), a, s.out, s.out);
  }

  lemma WatermarkOutput(c: Config, s: State, source: string, t: int)
    ensures var s' := OnWatermark(c, s, source, t);
            s'.out == s.out || (|s'.out| == |s.out| + 1 && s'.out[..|s.out|] == s.out && s'.out[|s.out|].Mark?)
  {
  }

  lemma WatermarkBuffers(c: Config, s: State, source: string, t: int)
    ensures var s' := OnWatermark(c, s, source, t);
            var a := Aligned(s'.leftWm, s'.rightWm);
            s'.left == Remaining(c, source, a, s.left, Left) && s'.right == Remaining(c, source, a, s.right, Right)
  {
    WatermarkSide(c, s, source, t, Left);
    WatermarkSide(c, s, source, t, Right);
  }

  function BufferOf(s: State, side: Side): Buffer { if side.Left? then s.left else s.right }

  lemma SweptSide(c: Config, s: State, source: string, a: int, side: Side)
    requires Known(c, source)
    ensures Swept(c, s, a).leftWm == s.leftWm && Swept(c, s, a).rightWm == s.rightWm
    ensures BufferOf(Swept(c, s, a), side) == Remaining(c, source, a, BufferOf(s, side), side)
  {
  }

  lemma WatermarkSide(c: Config, s: State, source: string, t: int, side: Side)
    ensures var s' := OnWatermark(c, s, source, t);
            BufferOf(s', side) == Remaining(c, source, Aligned(s'.leftWm, s'.rightWm), BufferOf(s, side), side)
  {
    if Known(c, source) {
      var s1 := Advanced(c, s, source, t);
      SweptSide(c, s1, source, Aligned(s1.leftWm, s1.rightWm), side);
    }
  }

  lemma WatermarkExact(c: Config, es: seq<Event>, al: seq<int>, s: State, source: string, t: int)
    requires Exact(c, es, al, s) && |es| == |al|
    ensures var s' := OnWatermark(c, s, source, t);
            Exact(c, es + [Watermark(source, t)], al + [Aligned(s'.leftWm, s'.rightWm)], s')
  {
    var s' := OnWatermark(c, s, source, t);
    var a := Aligned(s'.leftWm, s'.rightWm);
    WatermarkOutput(c, s, source, t);
    WatermarkBuffers(c, s, source, t);
    RemainingLeaves(c, source, a, s.left, Left);
    RemainingLeaves(c, source, a, s.right, Right);
    EvictExact(c, es, al, s, source, t, a, s');
  }

  lemma EvictExact(c: Config, es: seq<Event>, al: seq<int>, s: State, source: string, t: int, a: int, s': State)
    requires Exact(c, es, al, s) && |es| == |al|
    requires Leaves(c, source, a, s.left, s'.left, Left) && Leaves(c, source, a, s.right, s'.right, Right)
    requires s'.out == s.out || (|s'.out| == |s.out| + 1 && s'.out[..|s.out|] == s.out && s'.out[|s.out|].Mark?)
    ensures Exact(c, es + [Watermark(source, t)], al + [a], s')
  {
    EvictBuffered(c, es, al, source, t, a, s.left, s'.left, Left);
    EvictBuffered(c, es, al, source, t, a, s.right, s'.right, Right);
    Unchanged(c, es, al, Watermark(source, t), a, s.out, s'.out);
  }

  /** The state after any input is exactly what the definitions above say. */
  lemma {:induction false} RunExact(c: Config, es: seq<Event>)
    requires Numbered(es)
    ensures Exact(c, es, AlignedBehind(c, es), Run(c, es))
    decreases |es|
  {
    if es != [] {
      var n := |es| - 1;
      var es0, e := es[..n], es[n];
      assert es == es0 + [e];
      RunExact(c, es0);
      RunNext(c, es0, e);
      var s := Run(c, es0);
      match e
      case Record(x) => RecordExact(c, es0, AlignedBehind(c, es0), s, x, Aligned(Run(c, es).leftWm, Run(c, es).rightWm));
      case Watermark(source, t) => WatermarkExact(c, es0, AlignedBehind(c, es0), s, source, t);
    }
  }

  /**
    Every output pairs the later record with the buffered copy of the earlier one, of one key and in
    range, no pair comes out twice, and a pair is missing exactly when an eviction removed that copy.
   */
  lemma JoinExact(c: Config, es: seq<Event>, l: JRec, r: JRec)
    requires Numbered(es)
    ensures Pair(l, r) in Run(c, es).out <==> Joined(c, es, AlignedBehind(c, es), l, r)
    ensures multiset(Run(c, es).out)[Pair(l, r)] <= 1
  {
    RunExact(c, es);
    AtMostOnce(Run(c, es).out, Pair(l, r));
  }

  lemma {:induction false} AtMostOnce(out: seq<Out>, p: Out)
    requires p.Pair? && forall i, j :: 0 <= i < j < |out| && out[i].Pair? ==> out[i] != out[j]
    ensures multiset(out)[p] <= 1
  {
    if out != [] {
      var rest, q := out[..|out| - 1], out[|out| - 1];
      AtMostOnce(rest, p);
      assert out == rest + [q];
      if q == p {
        assert p !in rest;
      }
    }
  }

  // ---- Sides that honour their watermarks ---------------------------------------------------

  function SideWm(s: State, side: Side): int { if side.Left? then s.leftWm else s.rightWm }

  /** A record of `side` is not behind that side's watermark, if there is one. */
  predicate OnTime(s: State, side: Side, ts: int) { SideWm(s, side) == ZERO_TIME || ts >= SideWm(s, side) }

  /** No record arrives behind its own side's watermark. */
  ghost predicate Honoured(c: Config, es: seq<Event>) {
    forall i, side :: 0 <= i < |es| && es[i].Record? && On(c, es[i].r.source, side) ==> OnTime(Run(c, es[..i]), side, es[i].r.ts)
  }

  lemma StepWm(c: Config, s: State, e: Event, side: Side)
    ensures SideWm(s, side) <= SideWm(Step(c, s, e), side)
  {
  }

  lemma {:induction false} WmGrows(c: Config, es: seq<Event>, a: nat, b: nat, side: Side)
    requires a <= b <= |es|
    ensures SideWm(Run(c, es[..a]), side) <= SideWm(Run(c, es[..b]), side)
    decreases b - a
  {
    if a < b {
      WmGrows(c, es, a, b - 1, side);
      assert es[..b][..b - 1] == es[..b - 1];
      StepWm(c, Run(c, es[..b - 1]), es[b - 1], side);
    }
  }

  lemma {:induction false} AlignedAt(c: Config, es: seq<Event>, m: nat)
    requires m < |es|
    ensures AlignedBehind(c, es)[m] == Aligned(Run(c, es[..m + 1]).leftWm, Run(c, es[..m + 1]).rightWm)
    decreases |es|
  {
    if m < |es| - 1 {
      AlignedAt(c, es[..|es| - 1], m);
      assert es[..|es| - 1][..m + 1] == es[..m + 1];
    } else {
      assert es[..m + 1] == es;
      RunMarks(c, es);
    }
  }

  /** Behind event `m` the aligned watermark is not ahead of a later record of either side. */
  lemma NotAhead(c: Config, es: seq<Event>, m: nat, late: JRec, side: Side)
    requires Honoured(c, es) && Arrived(c, es, late, side) && m < late.n
    ensures var a := AlignedBehind(c, es)[m]; a == ZERO_TIME || a <= late.ts
  {
    AlignedAt(c, es, m);
    WmGrows(c, es, 0, m + 1, side);
    WmGrows(c, es, m + 1, late.n, side);
    assert es[..0] == [];
    assert OnTime(Run(c, es[..late.n]), side, late.ts);
  }

  /** With both sides honoured, a buffered copy is not evicted while a match can still arrive. */
  lemma NotEvicted(c: Config, es: seq<Event>, early: JRec, late: JRec, side: Side)
    requires Honoured(c, es) && Stored(c, es, early, side) && early.n < late.n
    requires Arrived(c, es, late, if side.Left? then Right else Left)
    requires var l, r := if side.Left? then early else late, if side.Left? then late else early;
             l.ts - c.before <= r.ts <= l.ts + c.after
    ensures Alive(c, es, AlignedBehind(c, es), early, side, late.n)
  {
    forall m: nat | early.n < m < late.n ensures !Evicts(c, es, AlignedBehind(c, es), m, side, early.ts) {
      NotAhead(c, es, m, late, if side.Left? then Right else Left);
    }
  }

  /** If each side honours its watermarks, what meets comes out exactly once, and nothing else does. */
  lemma HonouredJoin(c: Config, es: seq<Event>, l: JRec, r: JRec)
    requires Numbered(es) && Honoured(c, es)
    ensures multiset(Run(c, es).out)[Pair(l, r)] == if Meets(c, es, l, r) then 1 else 0
  {
    JoinExact(c, es, l, r);
    if Meets(c, es, l, r) {
      if l.n < r.n {
        NotEvicted(c, es, l, r, Left);
      } else {
        assert es[l.n] == Record(l) && On(c, l.source, Left);
        assert r.n != l.n;
        NotEvicted(c, es, r, l, Right);
      }
      assert Pair(l, r) in Run(c, es).out;
    }
  }

  // ---- Times that fit an int64 ---------------------------------------------------------------

  ghost predicate Over(es: seq<Event>, times: iset<int>) {
    forall i :: 0 <= i < |es| && es[i].Record? ==> es[i].r.ts in times
  }

  ghost predicate AllFit(times: iset<int>) { forall t :: t in times ==> Fits(t) }

  /** The output holds every in-range pair of the input exactly once, and nothing else. */
  ghost predicate IsNestedLoop(c: Config, es: seq<Event>) {
    forall l, r :: multiset(Run(c, es).out)[Pair(l, r)] == if NestedLoop(c, es, l, r) then 1 else 0
  }

  /** If each side honours its watermarks and every event time fits an int64, the join is the nested-loop join. */
  lemma JoinIsNestedLoop(c: Config, es: seq<Event>, times: iset<int>)
    requires Numbered(es) && Honoured(c, es) && Over(es, times) && AllFit(times)
    ensures IsNestedLoop(c, es)
  {
    forall l, r ensures multiset(Run(c, es).out)[Pair(l, r)] == if NestedLoop(c, es, l, r) then 1 else 0 {
      HonouredJoin(c, es, l, r);
      StoredFits(c, es, times, l, Left);
      StoredFits(c, es, times, r, Right);
    }
  }

  lemma StoredFits(c: Config, es: seq<Event>, times: iset<int>, x: JRec, side: Side)
    requires Numbered(es) && Over(es, times) && AllFit(times)
    ensures Stored(c, es, x, side) <==> Arrived(c, es, x, side)
  {
    if x.n < |es| && es[x.n].Record? {
      assert Fits(es[x.n].r.ts);
    }
  }

  /** A time is in range of its own buffered form exactly when it fits. */
  lemma OwnCopy(c: Config, t: int)
    requires c.before <= MAX_NANOS && c.after <= MAX_NANOS
    ensures c.InRange(UnixNano(t), t) <==> Fits(t)
  {
  }

  /** Two records of one key and one time, one on each side, and no watermark. */
  function Two(c: Config, t: int): seq<Event> {
    [Record(JRec(c.leftSource, "", t, [], 0)), Record(JRec(c.rightSource, "", t, [], 1))]
  }

  lemma TwoRun(c: Config, t: int)
    requires c.leftSource != c.rightSource
    ensures Numbered(Two(c, t)) && Honoured(c, Two(c, t))
    ensures NestedLoop(c, Two(c, t), Two(c, t)[0].r, Two(c, t)[1].r)
    ensures Run(c, Two(c, t)).out == if c.InRange(UnixNano(t), t) then [Pair(Kept(Two(c, t)[0].r), Two(c, t)[1].r)] else []
  {
    var es := Two(c, t);
    var s1 := Init().(left := map["" := [Kept(es[0].r)]]);
    assert es[..1] == [es[0]] && es[..0] == [] && [es[0]][..0] == [];
    assert Run(c, []) == Init();
    assert Run(c, [es[0]]) == s1 by {
      assert Matches(c, es[0].r, [], false) == [];
      assert Of(map[], "") + [Kept(es[0].r)] == [Kept(es[0].r)];
    }
    assert Matches(c, es[1].r, [], true) == [];
    assert [Kept(es[0].r)][..0] == [];
    assert Of(s1.left, "") == [Kept(es[0].r)];
  }

  /** Records without a timestamp never join, although they are all of one time. */
  lemma UnsetTimestamps(c: Config)
    requires c.leftSource != c.rightSource && c.before <= MAX_NANOS && c.after <= MAX_NANOS
    ensures Honoured(c, Two(c, ZERO_TIME)) && Run(c, Two(c, ZERO_TIME)).out == [] && !IsNestedLoop(c, Two(c, ZERO_TIME))
  {
    TwoRun(c, ZERO_TIME);
    OwnCopy(c, ZERO_TIME);
    assert multiset(Run(c, Two(c, ZERO_TIME)).out)[Pair(Two(c, ZERO_TIME)[0].r, Two(c, ZERO_TIME)[1].r)] == 0;
  }

  /** Every run over these event times in which the sides honour their watermarks is the nested-loop join. */
  ghost predicate AlwaysNestedLoop(c: Config, times: iset<int>) {
    forall es :: Numbered(es) && Honoured(c, es) && Over(es, times) ==> IsNestedLoop(c, es)
  }

  /** With one name for both sides there is no right side, and nothing to join. */
  lemma OneSource(c: Config, times: iset<int>)
    requires c.leftSource == c.rightSource
    ensures AlwaysNestedLoop(c, times)
  {
    forall es | Numbered(es) && Honoured(c, es) && Over(es, times) ensures IsNestedLoop(c, es) {
      forall l, r ensures multiset(Run(c, es).out)[Pair(l, r)] == if NestedLoop(c, es, l, r) then 1 else 0 {
        HonouredJoin(c, es, l, r);
      }
    }
  }

  /** Over a set of event times the join is the nested-loop join if and only if all of them fit an int64. */
  lemma NestedLoopIff(c: Config, times: iset<int>)
    requires c.before <= MAX_NANOS && c.after <= MAX_NANOS
    ensures AlwaysNestedLoop(c, times) <==> AllFit(times) || c.leftSource == c.rightSource
  {
    if c.leftSource == c.rightSource {
      OneSource(c, times);
    } else if AllFit(times) {
      forall es | Numbered(es) && Honoured(c, es) && Over(es, times) ensures IsNestedLoop(c, es) {
        JoinIsNestedLoop(c, es, times);
      }
    } else {
      var t :| t in times && !Fits(t);
      var es := Two(c, t);
      TwoRun(c, t);
      OwnCopy(c, t);
      assert multiset(Run(c, es).out)[Pair(es[0].r, es[1].r)] == 0;
      assert Over(es, times) && !IsNestedLoop(c, es);
    }
  }

  // ---- The output watermark ----------------------------------------------------------------------

  /** The event time of an output of the default join function. */
  function OutTs(o: Out): int { if o.Pair? then Max(o.l.ts, o.r.ts) else o.t }

  /** Watermarks strictly increase and stay behind both sides. */
  ghost predicate MarksOk(s: State) {
    && (forall i, j :: 0 <= i < j < |s.out| && s.out[i].Mark? && s.out[j].Mark? ==> s.out[i].t < s.out[j].t)
    && (forall i :: 0 <= i < |s.out| && s.out[i].Mark? ==> ZERO_TIME < s.out[i].t <= s.emitted)
    && s.leftWm >= ZERO_TIME && s.rightWm >= ZERO_TIME && ZERO_TIME <= s.emitted <= s.leftWm && s.emitted <= s.rightWm
  }

  lemma {:induction false} MarksIncrease(c: Config, es: seq<Event>)
    ensures MarksOk(Run(c, es))
  {
    if es != [] {
      MarksIncrease(c, es[..|es| - 1]);
      StepMarks(c, Run(c, es[..|es| - 1]), es[|es| - 1]);
    }
  }

  lemma StepMarks(c: Config, s: State, e: Event)
    requires MarksOk(s)
    ensures MarksOk(Step(c, s, e))
  {
    if e.Record? {
      MatchesIn(c, e.r, Of(s.right, e.r.key), false);
      MatchesIn(c, e.r, Of(s.left, e.r.key), true);
      RecordMarks(c, s, e.r);
    } else {
      WatermarkMarks(c, s, e.source, e.t);
    }
  }

  lemma WatermarkMarks(c: Config, s: State, source: string, t: int)
    requires MarksOk(s)
    ensures MarksOk(OnWatermark(c, s, source, t))
  {
  }

  lemma RecordMarks(c: Config, s: State, r: JRec)
    requires MarksOk(s)
    requires forall p :: p in Matches(c, r, Of(s.right, r.key), false) ==> p.Pair?
    requires forall p :: p in Matches(c, r, Of(s.left, r.key), true) ==> p.Pair?
    ensures MarksOk(OnRecord(c, s, r))
  {
    var s' := OnRecord(c, s, r);
    forall i | |s.out| <= i < |s'.out| ensures s'.out[i].Pair? {
      assert s'.out[i] in s'.out[|s.out|..];
    }
  }

  /** No output after a watermark is older than it. */
  ghost predicate InOrder(out: seq<Out>) {
    forall i, j :: 0 <= i < j < |out| && out[i].Mark? ==> OutTs(out[j]) >= out[i].t
  }

  /** The output watermark is valid: strictly increasing, behind both sides, and never overtaken by a later output. */
  lemma {:induction false} WatermarkValid(c: Config, es: seq<Event>)
    requires Honoured(c, es)
    ensures MarksOk(Run(c, es)) && InOrder(Run(c, es).out)
  {
    MarksIncrease(c, es);
    if es != [] {
      var n := |es| - 1;
      var s, e := Run(c, es[..n]), es[n];
      assert forall i :: 0 <= i < n ==> es[..n][..i] == es[..i];
      WatermarkValid(c, es[..n]);
      StepInOrder(c, s, e);
    }
  }

  lemma StepInOrder(c: Config, s: State, e: Event)
    requires MarksOk(s) && InOrder(s.out)
    requires e.Record? && c.SideOf(e.r.source).Some? ==> OnTime(s, c.SideOf(e.r.source).value, e.r.ts)
    ensures InOrder(Step(c, s, e).out)
  {
    if e.Record? && c.SideOf(e.r.source).Some? {
      NewInOrder(c, s, e.r);
    }
  }

  lemma NewInOrder(c: Config, s: State, r: JRec)
    requires MarksOk(s) && InOrder(s.out) && c.SideOf(r.source).Some? && OnTime(s, c.SideOf(r.source).value, r.ts)
    ensures InOrder(OnRecord(c, s, r).out)
  {
    MatchesLater(c, r, Of(s.right, r.key), false);
    MatchesLater(c, r, Of(s.left, r.key), true);
    AppendInOrder(s.out, Matches(c, r, Of(s.right, r.key), false), r.ts);
    AppendInOrder(s.out, Matches(c, r, Of(s.left, r.key), true), r.ts);
  }

  lemma MatchesLater(c: Config, r: JRec, others: seq<JRec>, othersLeft: bool)
    ensures forall p :: p in Matches(c, r, others, othersLeft) ==> p.Pair? && OutTs(p) >= r.ts
  {
    MatchesIn(c, r, others, othersLeft);
  }

  lemma AppendInOrder(out: seq<Out>, more: seq<Out>, ts: int)
    requires InOrder(out) && (forall i :: 0 <= i < |out| && out[i].Mark? ==> out[i].t <= ts)
    requires forall p :: p in more ==> p.Pair? && OutTs(p) >= ts
    ensures InOrder(out + more)
  {
    var all := out + more;
    forall i | |out| <= i < |all| ensures all[i].Pair? && OutTs(all[i]) >= ts {
      assert all[i] in more;
    }
  }

  /** The aligned watermark has been sent, once it is set. */
  ghost predicate EmittedSent(s: State) {
    s.emitted != ZERO_TIME ==> Mark(s.emitted) in s.out
  }

  lemma {:induction false} RunSent(c: Config, es: seq<Event>)
    ensures EmittedSent(Run(c, es))
  {
    if es != [] {
      RunSent(c, es[..|es| - 1]);
      StepSent(c, Run(c, es[..|es| - 1]), es[|es| - 1]);
    }
  }

  lemma StepSent(c: Config, s: State, e: Event)
    requires EmittedSent(s)
    ensures EmittedSent(Step(c, s, e))
  {
  }

  /** Behind any input the smaller of both sides' watermarks has been sent on, once both are set. */
  lemma LeastMarkSent(c: Config, es: seq<Event>)
    ensures LeastMark(c, es) != ZERO_TIME ==> Mark(LeastMark(c, es)) in Run(c, es).out
  {
    RunMarks(c, es);
    RunSent(c, es);
    EmittedIsAligned(c, es);
  }

  // ---- The order of the output ------------------------------------------------------------

  function LaterOf(p: Out): nat
    requires p.Pair?
  {
    if p.l.n > p.r.n then p.l.n else p.r.n
  }

  function EarlierOf(p: Out): nat
    requires p.Pair?
  {
    if p.l.n > p.r.n then p.r.n else p.l.n
  }

  /** `p` comes out before `q`: its later record arrived first or, of one later record, its earlier one did. */
  predicate Before(p: Out, q: Out)
    requires p.Pair? && q.Pair?
  {
    LaterOf(p) < LaterOf(q) || (LaterOf(p) == LaterOf(q) && EarlierOf(p) < EarlierOf(q))
  }

  ghost predicate Ordered(out: seq<Out>) {
    forall i, j :: 0 <= i < j < |out| && out[i].Pair? && out[j].Pair? ==> Before(out[i], out[j])
  }

  /** A list of records in the order of their arrival, all before place `n`. */
  ghost predicate Arranged(recs: seq<JRec>, n: nat) {
    && (forall i :: 0 <= i < |recs| ==> recs[i].n < n)
    && (forall i, j :: 0 <= i < j < |recs| ==> recs[i].n < recs[j].n)
  }

  ghost predicate BuffersArranged(s: State, n: nat) {
    forall k :: Arranged(Of(s.left, k), n) && Arranged(Of(s.right, k), n)
  }

  lemma {:induction false} KeepArranged(recs: seq<JRec>, cutoff: int, n: nat)
    requires Arranged(recs, n)
    ensures Arranged(Keep(recs, cutoff), n)
  {
    if recs != [] {
      KeepArranged(recs[..|recs| - 1], cutoff, n);
      KeepIn(recs[..|recs| - 1], cutoff);
      var kept := Keep(recs[..|recs| - 1], cutoff);
      forall i | 0 <= i < |kept| ensures kept[i].n < recs[|recs| - 1].n {
        assert kept[i] in kept && kept[i] in recs[..|recs| - 1];
      }
    }
  }

  /** The matches of a new record, in the order of arrival of what they match. */
  lemma {:induction false} MatchesOrdered(c: Config, r: JRec, others: seq<JRec>, othersLeft: bool)
    requires Arranged(others, r.n)
    ensures Ordered(Matches(c, r, others, othersLeft))
    ensures forall p :: p in Matches(c, r, others, othersLeft) ==> p.Pair? && LaterOf(p) == r.n && EarlierOf(p) < r.n
    ensures others != [] ==> forall p :: p in Matches(c, r, others, othersLeft) ==> EarlierOf(p) <= others[|others| - 1].n
  {
    if others != [] {
      var rest, o := others[..|others| - 1], others[|others| - 1];
      MatchesOrdered(c, r, rest, othersLeft);
      var ms := Matches(c, r, rest, othersLeft);
      forall i | 0 <= i < |ms| ensures ms[i].Pair? && LaterOf(ms[i]) == r.n && EarlierOf(ms[i]) < o.n {
        assert ms[i] in ms;
      }
    }
  }

  lemma RecordOrdered(c: Config, s: State, r: JRec)
    requires Ordered(s.out) && BuffersArranged(s, r.n) && (forall p :: p in s.out && p.Pair? ==> LaterOf(p) < r.n)
    ensures Ordered(OnRecord(c, s, r).out) && forall p :: p in OnRecord(c, s, r).out && p.Pair? ==> LaterOf(p) < r.n + 1
  {
    MatchesOrdered(c, r, Of(s.right, r.key), false);
    MatchesOrdered(c, r, Of(s.left, r.key), true);
    AppendOrdered(s.out, Matches(c, r, Of(s.right, r.key), false), r.n);
    AppendOrdered(s.out, Matches(c, r, Of(s.left, r.key), true), r.n);
  }

  lemma AppendOrdered(out: seq<Out>, more: seq<Out>, n: nat)
    requires Ordered(out) && Ordered(more) && (forall p :: p in out && p.Pair? ==> LaterOf(p) < n)
    requires forall p :: p in more ==> p.Pair? && LaterOf(p) == n
    ensures Ordered(out + more)
  {
    var all := out + more;
    forall i | 0 <= i < |all| ensures all[i] in out || all[i] in more {
    }
    forall i, j | 0 <= i < j < |all| && all[i].Pair? && all[j].Pair? ensures Before(all[i], all[j]) {
      if i < |out| <= j {
        assert all[i] in out && all[j] in more;
      }
    }
  }

  lemma AddArranged(b: Buffer, x: JRec, k: string)
    requires Arranged(Of(b, k), x.n)
    ensures Arranged(Of(b, k), x.n + 1) && Arranged(Of(Add(b, x), k), x.n + 1)
  {
  }

  lemma RecordSide(c: Config, s: State, r: JRec, side: Side)
    ensures BufferOf(OnRecord(c, s, r), side) == if On(c, r.source, side) then Add(BufferOf(s, side), Kept(r)) else BufferOf(s, side)
  {
  }

  lemma RecordArranged(c: Config, s: State, r: JRec)
    requires BuffersArranged(s, r.n)
    ensures BuffersArranged(OnRecord(c, s, r), r.n + 1)
  {
    var s' := OnRecord(c, s, r);
    RecordSide(c, s, r, Left);
    RecordSide(c, s, r, Right);
    forall k ensures Arranged(Of(s'.left, k), r.n + 1) && Arranged(Of(s'.right, k), r.n + 1) {
      AddArranged(s.left, Kept(r), k);
      AddArranged(s.right, Kept(r), k);
    }
  }

  lemma WatermarkArranged(c: Config, s: State, source: string, t: int, n: nat)
    requires BuffersArranged(s, n)
    ensures BuffersArranged(OnWatermark(c, s, source, t), n + 1)
  {
    var s' := OnWatermark(c, s, source, t);
    WatermarkBuffers(c, s, source, t);
    var a := Aligned(s'.leftWm, s'.rightWm);
    forall k ensures Arranged(Of(s'.left, k), n + 1) && Arranged(Of(s'.right, k), n + 1) {
      assert Arranged(Of(s.left, k), n) && Arranged(Of(s.right, k), n);
      RemainingIs(c, source, a, s.left, Left, k);
      RemainingIs(c, source, a, s.right, Right, k);
      LeftArranged(c, source, a, Of(s.left, k), Left, n);
      LeftArranged(c, source, a, Of(s.right, k), Right, n);
    }
  }

  /** What a watermark leaves of one list. */
  function LeftOf(c: Config, source: string, a: int, x: seq<JRec>, side: Side): seq<JRec> {
    if Known(c, source) && a != ZERO_TIME then Keep(x, a - c.Slack(side)) else x
  }

  lemma RemainingIs(c: Config, source: string, a: int, b: Buffer, side: Side, k: string)
    ensures Of(Remaining(c, source, a, b, side), k) == LeftOf(c, source, a, Of(b, k), side)
  {
    if Known(c, source) && a != ZERO_TIME {
      EvictedOf(b, a - c.Slack(side), k);
    }
  }

  lemma LeftArranged(c: Config, source: string, a: int, x: seq<JRec>, side: Side, n: nat)
    requires Arranged(x, n)
    ensures Arranged(LeftOf(c, source, a, x, side), n + 1)
  {
    KeepArranged(x, a - c.Slack(side), n);
    LaterArranged(LeftOf(c, source, a, x, side), n);
  }

  lemma LaterArranged(recs: seq<JRec>, n: nat)
    requires Arranged(recs, n)
    ensures Arranged(recs, n + 1)
  {
  }

  /** Pairs come out in the order in which their later records arrived and, for one such record, their earlier ones. */
  lemma {:induction false} OutputOrdered(c: Config, es: seq<Event>)
    requires Numbered(es)
    ensures Ordered(Run(c, es).out) && BuffersArranged(Run(c, es), |es|)
    ensures forall p :: p in Run(c, es).out && p.Pair? ==> LaterOf(p) < |es|
  {
    if es != [] {
      var n := |es| - 1;
      OutputOrdered(c, es[..n]);
      var s := Run(c, es[..n]);
      match es[n]
      case Record(r) =>
        RecordOrdered(c, s, r);
        RecordArranged(c, s, r);
      case Watermark(source, t) =>
        WatermarkOutput(c, s, source, t);
        MarkOrdered(s.out, OnWatermark(c, s, source, t).out);
        WatermarkArranged(c, s, source, t, n);
    }
  }

  lemma MarkOrdered(out: seq<Out>, out': seq<Out>)
    requires Ordered(out) && (out' == out || (|out'| == |out| + 1 && out'[..|out|] == out && out'[|out|].Mark?))
    ensures Ordered(out') && forall p :: p in out' && p.Pair? ==> p in out
  {
    if out' != out {
      assert out' == out + [out'[|out|]];
    }
  }

  // ---- Snapshots ------------------------------------------------------------------------------------

  function UnixNanoOrZero(t: int): int { if t == ZERO_TIME then 0 else UnixNano(t) }

  function TimeFromUnixNanoOrZero(n: int): int { if n == 0 then ZERO_TIME else n }

  /** The state a snapshot restores: buffers as they were, watermarks through their stored form. */
  function Restored(s: State): State {
    var leftWm := TimeFromUnixNanoOrZero(UnixNanoOrZero(s.leftWm));
    var rightWm := TimeFromUnixNanoOrZero(UnixNanoOrZero(s.rightWm));
    s.(leftWm := leftWm, rightWm := rightWm, emitted := Aligned(leftWm, rightWm))
  }

  predicate Survives(t: int) { t == ZERO_TIME || (Fits(t) && t != 0) }

  ghost predicate EmittedAligned(s: State) {
    s.emitted == Aligned(s.leftWm, s.rightWm) && s.leftWm >= ZERO_TIME && s.rightWm >= ZERO_TIME
  }

  lemma {:induction false} EmittedIsAligned(c: Config, es: seq<Event>)
    ensures EmittedAligned(Run(c, es))
  {
    if es != [] {
      EmittedIsAligned(c, es[..|es| - 1]);
      StepAligned(c, Run(c, es[..|es| - 1]), es[|es| - 1]);
    }
  }

  lemma StepAligned(c: Config, s: State, e: Event)
    requires EmittedAligned(s)
    ensures EmittedAligned(Step(c, s, e))
  {
  }

  /** The state after further input. */
  function RunFrom(c: Config, s: State, es: seq<Event>): State {
    if es == [] then s else Step(c, RunFrom(c, s, es[..|es| - 1]), es[|es| - 1])
  }

  /** Whatever comes next, the restored operator emits what the uninterrupted one emits. */
  ghost predicate Transparent(c: Config, s: State) {
    forall es :: RunFrom(c, Restored(s), es).out == RunFrom(c, s, es).out
  }

  function SourceOf(c: Config, side: Side): string { if side.Left? then c.leftSource else c.rightSource }

  function Other(side: Side): Side { if side.Left? then Right else Left }

  /** A watermark of one side: the other side's stays, and the aligned one is sent on if it has moved. */
  lemma OneSideMoves(c: Config, s: State, side: Side, t: int)
    requires c.leftSource != c.rightSource && EmittedAligned(s)
    ensures var s' := OnWatermark(c, s, SourceOf(c, side), t);
            && EmittedAligned(s') && SideWm(s', side) == Max(SideWm(s, side), t) && SideWm(s', Other(side)) == SideWm(s, Other(side))
            && s'.out == s.out + if s'.emitted > s.emitted then [Mark(s'.emitted)] else []
  {
    assert s.out + [] == s.out;
  }

  /** The other side goes far ahead, and then this side reaches `t`. */
  function Reveal(c: Config, side: Side, far: int, t: int): seq<Event> {
    [Watermark(SourceOf(c, Other(side)), far), Watermark(SourceOf(c, side), t)]
  }

  /** The watermark of `side` and then its advance to `t` come out, if they are news. */
  lemma Revealed(c: Config, s: State, side: Side, far: int, t: int)
    requires c.leftSource != c.rightSource && EmittedAligned(s) && ZERO_TIME < t < far
    requires SideWm(s, side) < far && SideWm(s, Other(side)) < far
    ensures var wm := SideWm(s, side);
            RunFrom(c, s, Reveal(c, side, far, t)).out
            == s.out + (if wm > s.emitted then [Mark(wm)] else []) + (if t > wm then [Mark(t)] else [])
  {
    var es := Reveal(c, side, far, t);
    var s1 := OnWatermark(c, s, SourceOf(c, Other(side)), far);
    assert es[..1] == [es[0]] && [es[0]][..0] == [];
    assert RunFrom(c, s, []) == s && RunFrom(c, s, [es[0]]) == s1;
    OneSideMoves(c, s, Other(side), far);
    OneSideMoves(c, s1, side, t);
  }

  /** A time strictly between that tells two watermarks apart. */
  function Between(wm: int, wm': int): int { if wm < wm' then wm + 1 else wm' + 1 }

  lemma AppendedDiffer(out: seq<Out>, a: seq<Out>, b: seq<Out>, a': seq<Out>, b': seq<Out>)
    requires out + a + b == out + a' + b'
    ensures a + b == a' + b'
  {
    Assoc(out, a, b);
    Assoc(out, a', b');
    assert (out + (a + b))[|out|..] == a + b && (out + (a' + b'))[|out|..] == a' + b';
  }

  lemma LastMark(a: seq<Out>, t: int, sent: bool, u: int)
    requires t != u
    ensures a + [Mark(t)] != (if sent then [Mark(u)] else []) + []
  {
    assert (a + [Mark(t)])[|a|] == Mark(t);
  }

  lemma TellsApart(c: Config, s: State, r: State, side: Side)
    requires c.leftSource != c.rightSource && EmittedAligned(s) && EmittedAligned(r) && r.out == s.out
    requires SideWm(s, side) - SideWm(r, side) >= 2 || SideWm(r, side) - SideWm(s, side) >= 2
    ensures exists es :: RunFrom(c, r, es).out != RunFrom(c, s, es).out
  {
    var wm, wm' := SideWm(s, side), SideWm(r, side);
    var t := Between(wm, wm');
    var far := Max(Max(wm, wm'), Max(SideWm(s, Other(side)), SideWm(r, Other(side)))) + 1;
    var es := Reveal(c, side, far, t);
    Revealed(c, s, side, far, t);
    Revealed(c, r, side, far, t);
    if RunFrom(c, r, es).out == RunFrom(c, s, es).out {
      AppendedDiffer(s.out, if wm' > r.emitted then [Mark(wm')] else [], if t > wm' then [Mark(t)] else [],
                     if wm > s.emitted then [Mark(wm)] else [], if t > wm then [Mark(t)] else []);
      if wm < wm' {
        LastMark(if wm > s.emitted then [Mark(wm)] else [], t, wm' > r.emitted, wm');
      } else {
        LastMark(if wm' > r.emitted then [Mark(wm')] else [], t, wm > s.emitted, wm);
      }
      assert false;
    }
  }

  /** A watermark that does not survive comes back at least two instants away, and not before the zero time. */
  lemma Lost(t: int)
    requires t >= ZERO_TIME && !Survives(t)
    ensures var t' := TimeFromUnixNanoOrZero(UnixNanoOrZero(t)); t' >= ZERO_TIME && (t - t' >= 2 || t' - t >= 2)
  {
    if !Fits(t) {
      WholeTurns(t);
      assert t - UnixNano(t) != 0;
    }
  }

  /**
    For two sources: whatever comes next, the restored operator emits the pairs and watermarks that the
    uninterrupted one emits, if and only if each watermark is unset or within int64 range and not the Unix
    epoch itself. The restored state is then the same.
   */
  lemma RestoreTransparentIff(c: Config, es: seq<Event>)
    requires c.leftSource != c.rightSource
    ensures Transparent(c, Run(c, es)) <==> Survives(Run(c, es).leftWm) && Survives(Run(c, es).rightWm)
    ensures Transparent(c, Run(c, es)) <==> Restored(Run(c, es)) == Run(c, es)
  {
    var s := Run(c, es);
    EmittedIsAligned(c, es);
    if !Survives(s.leftWm) {
      LostTells(c, s, Left);
    } else if !Survives(s.rightWm) {
      LostTells(c, s, Right);
    }
  }

  lemma LostTells(c: Config, s: State, side: Side)
    requires c.leftSource != c.rightSource && EmittedAligned(s) && !Survives(SideWm(s, side))
    ensures !Transparent(c, s) && Restored(s) != s
  {
    var r := Restored(s);
    Lost(SideWm(s, side));
    var other := SideWm(s, Other(side));
    if !Survives(other) {
      Lost(other);
    }
    TellsApart(c, s, r, side);
  }
}
