/** Watermark generation, one clock per partition. */
module WatermarkSourceModel {
  import opened Prelude
  import opened WindowAssign
  import W = Windows

  /** A partition of one source. */
  datatype Partition = Partition(source: string, number: int)

  /** The watermark of a clock that has seen timestamps up to `max`. */
  function ClockWm(max: int, bound: nat): int {
    if max == ZERO_TIME then ZERO_TIME else max - bound
  }

  /** `wm` is behind the greatest of `seen` by exactly `bound`; it is unset before anything later than the zero time was seen. */
  ghost predicate Trails(seen: seq<int>, bound: nat, wm: int) {
    if forall ts :: ts in seen ==> ts <= ZERO_TIME then wm == ZERO_TIME
    else (exists ts :: ts in seen && ts - bound == wm) && forall ts :: ts in seen ==> ts - bound <= wm
  }

  class BoundedOutOfOrderness {
    const bound: nat
    var maxTimestamp: int
    ghost var seen: seq<int>

    ghost predicate Valid()
      reads this
    {
      && maxTimestamp >= ZERO_TIME && (forall ts :: ts in seen ==> ts <= maxTimestamp)
      && (maxTimestamp != ZERO_TIME ==> maxTimestamp in seen)
    }

    constructor (bound: nat)
      ensures Valid() && this.bound == bound && maxTimestamp == ZERO_TIME && seen == []
    {
      this.bound, maxTimestamp, seen := bound, ZERO_TIME, [];
    }

    /** Only an advance changes the clock. */
    method OnRecord(ts: int)
      requires Valid()
      modifies this
      ensures Valid() && seen == old(seen) + [ts] && maxTimestamp == Max(old(maxTimestamp), ts)
    {
      if ts > maxTimestamp {
        maxTimestamp := ts;
      }
      seen := seen + [ts];
    }

    method GetWatermark() returns (wm: int)
      requires Valid()
      ensures Trails(seen, bound, wm) && wm == ClockWm(maxTimestamp, bound)
    {
      if maxTimestamp == ZERO_TIME {
        return ZERO_TIME;
      }
      assert maxTimestamp in seen;
      return maxTimestamp - bound;
    }
  }

  // ---- The source loop ------------------------------------------------------------------

  datatype Event = Record(p: Partition, ts: int) | Tick

  datatype Out = Rec(p: Partition, ts: int) | Mark(t: int)

  /** The latest timestamp of each partition, the last emitted watermark, and what was sent downstream. */
  datatype State = State(clocks: map<Partition, int>, last: int, out: seq<Out>)

  function Init(): State { State(map[], ZERO_TIME, []) }

  function Seen(clocks: map<Partition, int>, p: Partition): int {
    if p in clocks then clocks[p] else ZERO_TIME
  }

  /** `m` is the least watermark over the partitions that have one, or unset when none has. */
  ghost predicate Least(clocks: map<Partition, int>, ps: set<Partition>, bound: nat, m: int) {
    && (forall p :: p in ps && p in clocks && ClockWm(clocks[p], bound) != ZERO_TIME ==> m != ZERO_TIME && m <= ClockWm(clocks[p], bound))
    && (m != ZERO_TIME ==> exists p :: p in ps && p in clocks && ClockWm(clocks[p], bound) == m)
  }

  function OnRecord(s: State, p: Partition, ts: int): State {
    s.(clocks := s.clocks[p := Max(Seen(s.clocks, p), ts)], out := s.out + [Rec(p, ts)])
  }

  /** A tick on which the least watermark is `m`. */
  function OnTick(s: State, m: int): State {
    var last := Max(s.last, m);
    if last == ZERO_TIME then s.(last := last) else s.(last := last, out := s.out + [Mark(last)])
  }

  type Clocks = map<Partition, BoundedOutOfOrderness>

  /** One clock of its own for each partition. */
  ghost predicate ClocksValid(clocks: Clocks, bound: nat)
    reads clocks.Values
  {
    && (forall p :: p in clocks ==> clocks[p] in clocks.Values && clocks[p].Valid() && clocks[p].bound == bound)
    && (forall p, q :: p in clocks && q in clocks && p != q ==> clocks[p] != clocks[q])
  }

  /** The latest timestamp each clock has seen. */
  ghost function Latest(clocks: Clocks): map<Partition, int>
    reads clocks.Values
  {
    map p | p in clocks :: assert clocks[p] in clocks.Values; clocks[p].maxTimestamp
  }

  /** A record moves the clock of its partition and no other. */
  method Observe(clocks: Clocks, ghost bound: nat, p: Partition, ts: int)
    requires ClocksValid(clocks, bound) && p in clocks
    modifies clocks[p]
    ensures ClocksValid(clocks, bound) && Latest(clocks) == old(Latest(clocks))[p := Max(old(Latest(clocks))[p], ts)]
  {
    clocks[p].OnRecord(ts);
  }

  lemma RecordLatest(latest: map<Partition, int>, p: Partition, ts: int, made: map<Partition, int>, moved: map<Partition, int>)
    requires made == latest[p := Seen(latest, p)] && moved == made[p := Max(made[p], ts)]
    ensures moved == latest[p := Max(Seen(latest, p), ts)]
  {
  }

  /** The larger of the last watermark and the least one, sent on once it is set. */
  method Emitted(last: int, out: seq<Out>, min: int) returns (last': int, out': seq<Out>)
    ensures last' == Max(last, min) && out' == if last' == ZERO_TIME then out else out + [Mark(last')]
  {
    last', out' := last, out;
    if min > last {
      last' := min;
    }
    if last' != ZERO_TIME {
      out' := out + [Mark(last')];
    }
  }

  class WatermarkSource {
    const bound: nat
    var clocks: Clocks
    var last: int
    var out: seq<Out>

    ghost predicate Valid()
      reads this, clocks.Values
    {
      ClocksValid(clocks, bound)
    }

    ghost function View(): State
      reads this, clocks.Values
    {
      State(Latest(clocks), last, out)
    }

    constructor (bound: nat)
      ensures Valid() && this.bound == bound && View() == Init()
    {
      this.bound := bound;
      clocks, last, out := map[], ZERO_TIME, [];
    }

    /** The clock of a partition, made on its first record. */
    method ClockOf(p: Partition) returns (clock: BoundedOutOfOrderness)
      requires Valid()
      modifies this`clocks
      ensures Valid() && p in clocks && clocks[p] == clock && (clock in old(clocks.Values) || fresh(clock))
      ensures clocks.Values <= old(clocks.Values) + {clock}
      ensures Latest(clocks) == old(Latest(clocks))[p := Seen(old(Latest(clocks)), p)]
    {
      if p !in clocks {
        clock := new BoundedOutOfOrderness(bound);
        clocks := clocks[p := clock];
      } else {
        clock := clocks[p];
      }
    }

    /** The clock of the record's partition moves; it is made if need be. */
    method Note(p: Partition, ts: int)
      requires Valid()
      modifies this`clocks, clocks.Values
      ensures Valid() && fresh(clocks.Values - old(clocks.Values))
      ensures Latest(clocks) == old(Latest(clocks))[p := Max(Seen(old(Latest(clocks)), p), ts)]
    {
      ghost var latest := Latest(clocks);
      var clock := ClockOf(p);
      ghost var made := Latest(clocks);
      Observe(clocks, bound, p, ts);
      RecordLatest(latest, p, ts, made, Latest(clocks));
    }

    method HandleRecord(p: Partition, ts: int)
      requires Valid()
      modifies this, clocks.Values
      ensures Valid() && fresh(clocks.Values - old(clocks.Values)) && View() == OnRecord(old(View()), p, ts)
    {
      ghost var s := View();
      Note(p, ts);
      out := out + [Rec(p, ts)];
      assert View() == OnRecord(s, p, ts);
    }

    /** The least watermark over the partitions that have one. */
    method PartitionWatermark() returns (min: int)
      requires Valid()
      ensures Least(Latest(clocks), Latest(clocks).Keys, bound, min)
    {
      min := ZERO_TIME;
      var rest := clocks.Keys;
      while rest != {}
        invariant rest <= clocks.Keys
        invariant Least(Latest(clocks), clocks.Keys - rest, bound, min)
        decreases |rest|
      {
        var p :| p in rest;
        var wm := clocks[p].GetWatermark();
        rest := rest - {p};
        assert p in clocks.Keys - rest && wm == ClockWm(Latest(clocks)[p], bound);
        if wm == ZERO_TIME {
          continue;
        }
        if min == ZERO_TIME || wm < min {
          min := wm;
        }
      }
      assert clocks.Keys - rest == Latest(clocks).Keys;
    }

    method HandleTick() returns (ghost m: int)
      requires Valid()
      modifies this`last, this`out
      ensures Valid() && clocks == old(clocks)
      ensures Least(old(View()).clocks, old(View()).clocks.Keys, bound, m) && View() == OnTick(old(View()), m)
    {
      var pm := PartitionWatermark();
      m := pm;
      ghost var latest := Latest(clocks);
      last, out := Emitted(last, out, pm);
      assert Latest(clocks) == latest;
    }
  }

  /** `s'` follows `s` on `e`. */
  ghost predicate Follows(bound: nat, s: State, e: Event, s': State) {
    match e
    case Record(p, ts) => s' == OnRecord(s, p, ts)
    case Tick => exists m :: Least(s.clocks, s.clocks.Keys, bound, m) && s' == OnTick(s, m)
  }

  /** `ss` are the states of a run over `es`. */
  ghost predicate Run(bound: nat, es: seq<Event>, ss: seq<State>) {
    |ss| == |es| + 1 && ss[0] == Init() && forall i :: 0 <= i < |es| ==> Follows(bound, ss[i], es[i], ss[i + 1])
  }

  // ---- Safety --------------------------------------------------------------------------------

  /** Disorder within a partition stays within the bound. */
  ghost predicate BoundedDisorder(bound: nat, es: seq<Event>) {
    forall i, j :: 0 <= i < j < |es| && es[i].Record? && es[j].Record? && es[i].p == es[j].p ==> es[j].ts >= es[i].ts - bound
  }

  /** No partition appears for the first time after a watermark. */
  ghost predicate SeenFirst(es: seq<Event>, ss: seq<State>)
    requires |ss| == |es| + 1
  {
    forall i :: 0 <= i < |es| && es[i].Record? && ss[i].last != ZERO_TIME ==> es[i].p in ss[i].clocks
  }

  /** A clock that stands at `t` has a watermark: it is not taken for an unset one. */
  predicate Dated(bound: nat, t: int) { t > ZERO_TIME && t - bound != ZERO_TIME }

  ghost predicate AllDated(bound: nat, es: seq<Event>) {
    forall i :: 0 <= i < |es| && es[i].Record? ==> Dated(bound, es[i].ts)
  }

  /** Each clock is the latest timestamp of its partition, and the last watermark is behind every clock. */
  ghost predicate ClocksOk(bound: nat, es: seq<Event>, n: nat, s: State)
    requires n <= |es|
  {
    && (forall p :: p in s.clocks ==> Dated(bound, s.clocks[p]) && exists i :: 0 <= i < n && es[i] == Record(p, s.clocks[p]))
    && s.last >= ZERO_TIME
    && (s.last != ZERO_TIME ==> forall p :: p in s.clocks ==> s.last <= s.clocks[p] - bound)
  }

  lemma {:induction false} ClocksKept(bound: nat, es: seq<Event>, ss: seq<State>, n: nat)
    requires Run(bound, es, ss) && AllDated(bound, es) && SeenFirst(es, ss) && n <= |es|
    ensures ClocksOk(bound, es, n, ss[n])
  {
    if n > 0 {
      ClocksKept(bound, es, ss, n - 1);
      AtStep(bound, es, ss, n - 1);
      StepClocks(bound, es, n, ss[n - 1], ss[n]);
    }
  }

  /** What the hypotheses say about one event. */
  lemma AtStep(bound: nat, es: seq<Event>, ss: seq<State>, i: nat)
    requires Run(bound, es, ss) && AllDated(bound, es) && SeenFirst(es, ss) && i < |es|
    ensures Follows(bound, ss[i], es[i], ss[i + 1])
    ensures es[i].Record? ==> Dated(bound, es[i].ts) && (ss[i].last != ZERO_TIME ==> es[i].p in ss[i].clocks)
  {
  }

  lemma StepClocks(bound: nat, es: seq<Event>, n: nat, s: State, s': State)
    requires 0 < n <= |es| && ClocksOk(bound, es, n - 1, s) && Follows(bound, s, es[n - 1], s')
    requires es[n - 1].Record? ==> Dated(bound, es[n - 1].ts) && (s.last != ZERO_TIME ==> es[n - 1].p in s.clocks)
    ensures ClocksOk(bound, es, n, s')
  {
    if es[n - 1].Record? {
      RecordClocks(bound, es, n, s);
    } else {
      TickClocks(bound, es, n, s, s');
    }
  }

  lemma RecordClocks(bound: nat, es: seq<Event>, n: nat, s: State)
    requires 0 < n <= |es| && es[n - 1].Record? && ClocksOk(bound, es, n - 1, s) && Dated(bound, es[n - 1].ts)
    requires s.last != ZERO_TIME ==> es[n - 1].p in s.clocks
    ensures ClocksOk(bound, es, n, OnRecord(s, es[n - 1].p, es[n - 1].ts))
  {
    var e := es[n - 1];
    var s' := OnRecord(s, e.p, e.ts);
    forall p | p in s'.clocks ensures Dated(bound, s'.clocks[p]) && exists i :: 0 <= i < n && es[i] == Record(p, s'.clocks[p]) {
      if p == e.p && s'.clocks[p] == e.ts {
        assert es[n - 1] == Record(p, s'.clocks[p]);
      } else {
        assert p in s.clocks && s'.clocks[p] == s.clocks[p];
      }
    }
  }

  lemma TickClocks(bound: nat, es: seq<Event>, n: nat, s: State, s': State)
    requires 0 < n <= |es| && ClocksOk(bound, es, n - 1, s) && Follows(bound, s, Tick, s')
    ensures ClocksOk(bound, es, n, s')
  {
    var m :| Least(s.clocks, s.clocks.Keys, bound, m) && s' == OnTick(s, m);
    forall p | p in s.clocks ensures ClockWm(s.clocks[p], bound) == s.clocks[p] - bound != ZERO_TIME {
      assert Dated(bound, s.clocks[p]);
    }
  }

  /** No watermark is set, or `ts` is behind the last one by no more than `slack`. */
  predicate OnTime(last: int, ts: int, slack: nat) { last == ZERO_TIME || last - slack <= ts }

  /** A record is never behind the last watermark. */
  lemma RecordNotLate(bound: nat, es: seq<Event>, ss: seq<State>, n: nat)
    requires Run(bound, es, ss) && AllDated(bound, es) && BoundedDisorder(bound, es) && SeenFirst(es, ss)
    requires n < |es| && es[n].Record?
    ensures OnTime(ss[n].last, es[n].ts, 0)
  {
    ClocksKept(bound, es, ss, n);
    var s, p := ss[n], es[n].p;
    if s.last != ZERO_TIME {
      var i :| 0 <= i < n && es[i] == Record(p, s.clocks[p]);
      assert es[n].ts >= es[i].ts - bound;
    }
  }

  /** Emitted watermarks never go back, and no record follows a watermark more than `slack` above it. */
  ghost predicate SafeBy(out: seq<Out>, slack: nat) {
    && (forall i, j :: 0 <= i < j < |out| && out[i].Mark? && out[j].Mark? ==> out[i].t <= out[j].t)
    && (forall i, j :: 0 <= i < j < |out| && out[i].Mark? && out[j].Rec? ==> out[i].t - slack <= out[j].ts)
  }

  /** Emitted watermarks never go back, and no record follows a watermark above it. */
  ghost predicate Safe(out: seq<Out>) { SafeBy(out, 0) }

  /** A safe output whose watermarks are all set and not above `last`. */
  ghost predicate SafeUpTo(out: seq<Out>, last: int, slack: nat) {
    SafeBy(out, slack) && forall i :: 0 <= i < |out| && out[i].Mark? ==> ZERO_TIME < out[i].t <= last
  }

  lemma SafeAppend(out: seq<Out>, last: int, x: Out, last': int, slack: nat)
    requires SafeUpTo(out, last, slack) && last <= last'
    requires x.Rec? ==> OnTime(last, x.ts, slack)
    requires x.Mark? ==> ZERO_TIME < x.t == last'
    ensures SafeUpTo(out + [x], last', slack)
  {
  }

  /** Every record comes when no watermark is more than `slack` ahead of it. */
  ghost predicate AllOnTime(es: seq<Event>, ss: seq<State>, slack: nat)
    requires |ss| == |es| + 1
  {
    forall i :: 0 <= i < |es| && es[i].Record? ==> OnTime(ss[i].last, es[i].ts, slack)
  }

  lemma {:induction false} SafeWhenOnTime(bound: nat, es: seq<Event>, ss: seq<State>, n: nat, slack: nat)
    requires Run(bound, es, ss) && AllOnTime(es, ss, slack) && n <= |es|
    ensures SafeUpTo(ss[n].out, ss[n].last, slack) && ss[n].last >= ZERO_TIME
  {
    if n > 0 {
      SafeWhenOnTime(bound, es, ss, n - 1, slack);
      assert Follows(bound, ss[n - 1], es[n - 1], ss[n]);
      SafeStep(bound, ss[n - 1], es[n - 1], ss[n], slack);
    }
  }

  lemma SafeStep(bound: nat, s: State, e: Event, s': State, slack: nat)
    requires SafeUpTo(s.out, s.last, slack) && s.last >= ZERO_TIME && Follows(bound, s, e, s')
    requires e.Record? ==> OnTime(s.last, e.ts, slack)
    ensures SafeUpTo(s'.out, s'.last, slack) && s'.last >= ZERO_TIME
  {
    if e.Record? {
      SafeAppend(s.out, s.last, Rec(e.p, e.ts), s'.last, slack);
    } else {
      SafeTick(bound, s, s', slack);
    }
  }

  lemma SafeTick(bound: nat, s: State, s': State, slack: nat)
    requires SafeUpTo(s.out, s.last, slack) && s.last >= ZERO_TIME && Follows(bound, s, Tick, s')
    ensures SafeUpTo(s'.out, s'.last, slack) && s'.last >= ZERO_TIME
  {
    if s'.last != ZERO_TIME {
      SafeAppend(s.out, s.last, Mark(s'.last), s'.last, slack);
    }
  }

  /** With bounded disorder, partitions seen in time and dated records the watermarks are safe. */
  lemma WatermarkSafe(bound: nat, es: seq<Event>, ss: seq<State>, n: nat)
    requires Run(bound, es, ss) && AllDated(bound, es) && BoundedDisorder(bound, es) && SeenFirst(es, ss) && n <= |es|
    ensures SafeUpTo(ss[n].out, ss[n].last, 0)
  {
    forall i | 0 <= i < |es| && es[i].Record? ensures OnTime(ss[i].last, es[i].ts, 0) {
      RecordNotLate(bound, es, ss, i);
    }
    SafeWhenOnTime(bound, es, ss, n, 0);
  }

  /**
    Both hypotheses on the order are needed. One late record makes the output unsafe: of the same partition
    it exceeds the disorder bound, of another one it is a partition first seen after a watermark.
   */
  lemma LateRecord(bound: nat, p: Partition, q: Partition) returns (es: seq<Event>, ss: seq<State>)
    ensures Run(bound, es, ss) && AllDated(bound, es) && !Safe(ss[|es|].out)
    ensures p == q ==> SeenFirst(es, ss) && !BoundedDisorder(bound, es)
    ensures p != q ==> BoundedDisorder(bound, es) && !SeenFirst(es, ss)
  {
    var t := ZERO_TIME + bound + 1;
    var u := t + bound + 10;
    es := [Record(p, u), Tick, Record(q, t)];
    var s1 := OnRecord(Init(), p, u);
    var s2 := OnTick(s1, u - bound);
    var s3 := OnRecord(s2, q, t);
    ss := [Init(), s1, s2, s3];
    assert s1.clocks == map[p := u];
    assert Least(s1.clocks, s1.clocks.Keys, bound, u - bound) by { assert ClockWm(s1.clocks[p], bound) == u - bound; }
    assert s3.out == [Rec(p, u), Mark(u - bound), Rec(q, t)];
    assert s3.out[1].Mark? && s3.out[2].Rec?;
    if p == q {
      assert es[0].p == es[2].p;
    } else {
      assert es[2].Record? && ss[2].last != ZERO_TIME;
    }
  }

  // ---- Records without a watermark of their own -----------------------------------------------------

  /** The clock of a partition that has only seen `t`. */
  lemma Undated(bound: nat, t: int)
    requires !Dated(bound, t)
    ensures ClockWm(Max(ZERO_TIME, t), bound) == ZERO_TIME
  {
  }

  /**
    So is the dating: a partition whose watermark reads as unset is skipped, and the watermark of
    another one passes its next record.
   */
  lemma UndatedRecord(bound: nat, t: int, u: int, r: int, p: Partition, q: Partition) returns (es: seq<Event>, ss: seq<State>)
    requires p != q && !Dated(bound, t) && u - bound > ZERO_TIME && t - bound <= r < u - bound
    ensures es == [Record(q, t), Record(p, u), Tick, Record(q, r)]
    ensures Run(bound, es, ss) && BoundedDisorder(bound, es) && SeenFirst(es, ss) && !Safe(ss[|es|].out)
    ensures ss[|es|].out == [Rec(q, t), Rec(p, u), Mark(u - bound), Rec(q, r)]
  {
    es := [Record(q, t), Record(p, u), Tick, Record(q, r)];
    var s1 := OnRecord(Init(), q, t);
    var s2 := OnRecord(s1, p, u);
    var s3 := OnTick(s2, u - bound);
    var s4 := OnRecord(s3, q, r);
    ss := [Init(), s1, s2, s3, s4];
    Undated(bound, t);
    assert s2.clocks == map[q := Max(ZERO_TIME, t), p := u];
    assert Least(s2.clocks, s2.clocks.Keys, bound, u - bound) by { assert ClockWm(s2.clocks[p], bound) == u - bound; }
    assert Follows(bound, s2, Tick, s3);
    assert s4.out == [Rec(q, t), Rec(p, u), Mark(u - bound), Rec(q, r)];
    assert s4.out[2].Mark? && s4.out[3].Rec?;
  }

  ghost predicate Over(es: seq<Event>, times: iset<int>) {
    forall i :: 0 <= i < |es| && es[i].Record? ==> es[i].ts in times
  }

  /** Every run over these times with bounded disorder and partitions seen in time is safe. */
  ghost predicate AlwaysSafe(bound: nat, times: iset<int>) {
    forall es: seq<Event>, ss: seq<State> :: Run(bound, es, ss) && Over(es, times) && BoundedDisorder(bound, es) && SeenFirst(es, ss) ==> Safe(ss[|es|].out)
  }

  ghost predicate DatedTimes(bound: nat, times: iset<int>) { forall t :: t in times ==> Dated(bound, t) }

  /** No watermark that one of these times sets is more than `slack` ahead of another of them. */
  ghost predicate NonePassed(bound: nat, times: iset<int>, slack: nat) {
    forall r, u :: r in times && u in times && u - bound > ZERO_TIME ==> u - bound - slack <= r
  }

  /** Clocks stand at times of the run, and a watermark is one of these less the bound. */
  ghost predicate FromTimes(bound: nat, times: iset<int>, s: State) {
    && (forall p :: p in s.clocks ==> s.clocks[p] == ZERO_TIME || s.clocks[p] in times)
    && s.last >= ZERO_TIME && (s.last != ZERO_TIME ==> s.last + bound in times)
  }

  lemma {:induction false} TimesKept(bound: nat, times: iset<int>, es: seq<Event>, ss: seq<State>, n: nat)
    requires Run(bound, es, ss) && Over(es, times) && n <= |es|
    ensures FromTimes(bound, times, ss[n])
  {
    if n > 0 {
      TimesKept(bound, times, es, ss, n - 1);
      assert Follows(bound, ss[n - 1], es[n - 1], ss[n]);
      if es[n - 1].Tick? {
        var m :| Least(ss[n - 1].clocks, ss[n - 1].clocks.Keys, bound, m) && ss[n] == OnTick(ss[n - 1], m);
      }
    }
  }

  lemma SafeWhenNonePassed(bound: nat, times: iset<int>, es: seq<Event>, ss: seq<State>, slack: nat)
    requires Run(bound, es, ss) && Over(es, times) && NonePassed(bound, times, slack)
    ensures SafeBy(ss[|es|].out, slack)
  {
    forall i | 0 <= i < |es| && es[i].Record? ensures OnTime(ss[i].last, es[i].ts, slack) {
      TimesKept(bound, times, es, ss, i);
      if ss[i].last != ZERO_TIME {
        var u := ss[i].last + bound;
        assert u in times && es[i].ts in times && u - bound > ZERO_TIME;
      }
    }
    SafeWhenOnTime(bound, es, ss, |es|, slack);
  }

  /** If one of these times is not dated and one is passed by another's watermark, some run passes it. */
  lemma PassedUndated(bound: nat, times: iset<int>, t: int, r: int, u: int) returns (es: seq<Event>, ss: seq<State>)
    requires t in times && r in times && u in times && !Dated(bound, t) && u - bound > ZERO_TIME && r < u - bound
    ensures Run(bound, es, ss) && Over(es, times) && BoundedDisorder(bound, es) && SeenFirst(es, ss)
    ensures exists x: Partition, p: Partition, q: int :: ss[|es|].out == [Rec(x, q), Rec(p, u), Mark(u - bound), Rec(x, r)]
  {
    var p, q := Partition("", 0), Partition("", 1);
    if t - bound <= r {
      es, ss := UndatedRecord(bound, t, u, r, p, q);
    } else {
      es, ss := UndatedRecord(bound, r, u, r, p, q);
    }
  }

  /**
    Over any set of record times, every run with bounded disorder and partitions seen in time is safe if
    and only if each time is dated, or no watermark that one of them sets is ahead of another.
   */
  lemma SafeIff(bound: nat, times: iset<int>)
    ensures AlwaysSafe(bound, times) <==> DatedTimes(bound, times) || NonePassed(bound, times, 0)
  {
    if DatedTimes(bound, times) || NonePassed(bound, times, 0) {
      forall es: seq<Event>, ss: seq<State> | Run(bound, es, ss) && Over(es, times) && BoundedDisorder(bound, es) && SeenFirst(es, ss)
        ensures Safe(ss[|es|].out) {
        if DatedTimes(bound, times) {
          WatermarkSafe(bound, es, ss, |es|);
        } else {
          SafeWhenNonePassed(bound, times, es, ss, 0);
        }
      }
    } else {
      var t :| t in times && !Dated(bound, t);
      var r, u :| r in times && u in times && u - bound > ZERO_TIME && u - bound > r;
      var es, ss := PassedUndated(bound, times, t, r, u);
      assert ss[|es|].out[2].Mark? && ss[|es|].out[3].Rec?;
    }
  }

  /** Once the times reach far enough past the zero time, dating is the whole condition. */
  lemma DatedIff(bound: nat, times: iset<int>, u: int)
    requires u in times && u - bound > ZERO_TIME + bound
    ensures AlwaysSafe(bound, times) <==> DatedTimes(bound, times)
  {
    SafeIff(bound, times);
    if t :| t in times && !Dated(bound, t) {
      assert t < u - bound;
    }
  }

  // ---- The window operator behind it ---------------------------------------------------------------

  function Records(out: seq<Out>): nat {
    if out == [] then 0 else Records(out[..|out| - 1]) + if out[|out| - 1].Rec? then 1 else 0
  }

  /** `ws` delivers `out` to a window operator. */
  ghost predicate Delivers(out: seq<Out>, ws: seq<W.Event>) {
    |ws| == |out| && forall i :: 0 <= i < |out| ==>
      match out[i]
      case Rec(_, ts) => ws[i].Record? && ws[i].r.ts == ts
      case Mark(t) => ws[i].Watermark? && ws[i].t == t
  }

  ghost predicate WmOf(out: seq<Out>, wm: int) {
    && (forall i :: 0 <= i < |out| && out[i].Mark? ==> out[i].t <= wm)
    && (wm == ZERO_TIME || exists i :: 0 <= i < |out| && out[i] == Mark(wm))
  }

  /** A window operator behind a stream that is safe up to its lateness accepts every record, whatever its assigner. */
  lemma {:induction false} NothingDropped(out: seq<Out>, a: W.Assigner, lateness: nat, ws: seq<W.Event>)
    requires SafeBy(out, lateness) && Delivers(out, ws) && W.Exec(a, lateness, W.Init(), ws).Some?
    ensures |W.Exec(a, lateness, W.Init(), ws).value.accepted| == Records(out) && WmOf(out, W.Exec(a, lateness, W.Init(), ws).value.wm)
  {
    if out != [] {
      var n := |out| - 1;
      NothingDropped(out[..n], a, lateness, ws[..n]);
      Accepted(out, a, lateness, W.Exec(a, lateness, W.Init(), ws[..n]).value, ws[n], n);
    }
  }

  /** One more item: a record is accepted, and the watermark stays that of the stream. */
  lemma Accepted(out: seq<Out>, a: W.Assigner, lateness: nat, s: W.State, e: W.Event, n: nat)
    requires SafeBy(out, lateness) && |out| == n + 1 && WmOf(out[..n], s.wm) && W.Step(a, lateness, s, e).Some?
    requires match out[n]
             case Rec(_, ts) => e.Record? && e.r.ts == ts
             case Mark(t) => e.Watermark? && e.t == t
    ensures var s' := W.Step(a, lateness, s, e).value;
            |s'.accepted| == |s.accepted| + (if out[n].Rec? then 1 else 0) && WmOf(out, s'.wm)
  {
    if out[n].Rec? {
      NotLate(out, lateness, s.wm, n);
    }
    DeliveredWm(out, a, lateness, s, e, n);
  }

  lemma NotLate(out: seq<Out>, lateness: nat, wm: int, n: nat)
    requires SafeBy(out, lateness) && n < |out| && WmOf(out[..n], wm) && out[n].Rec?
    ensures !W.TooLate(lateness, wm, out[n].ts)
  {
    if wm != ZERO_TIME {
      var i :| 0 <= i < |out[..n]| && out[..n][i] == Mark(wm);
      assert out[i] == Mark(wm);
    }
  }

  lemma DeliveredWm(out: seq<Out>, a: W.Assigner, lateness: nat, s: W.State, e: W.Event, n: nat)
    requires |out| == n + 1 && WmOf(out[..n], s.wm) && W.Step(a, lateness, s, e).Some?
    requires out[n].Mark? ==> e.Watermark? && e.t == out[n].t
    requires out[n].Rec? ==> e.Record?
    ensures WmOf(out, W.Step(a, lateness, s, e).value.wm)
  {
    var wm := W.Step(a, lateness, s, e).value.wm;
    if wm == s.wm && wm != ZERO_TIME {
      var i :| 0 <= i < |out[..n]| && out[..n][i] == Mark(s.wm);
      assert out[i] == Mark(wm);
    } else if wm != ZERO_TIME {
      assert out[n] == Mark(wm);
    }
  }

  /** End to end: with bounded disorder, every partition seen in time and dated records, the windows drop nothing. */
  lemma EndToEnd(bound: nat, es: seq<Event>, ss: seq<State>, a: W.Assigner, lateness: nat, ws: seq<W.Event>)
    requires Run(bound, es, ss) && AllDated(bound, es) && BoundedDisorder(bound, es) && SeenFirst(es, ss)
    requires Delivers(ss[|es|].out, ws) && W.Exec(a, lateness, W.Init(), ws).Some?
    ensures |W.Exec(a, lateness, W.Init(), ws).value.accepted| == Records(ss[|es|].out)
  {
    WatermarkSafe(bound, es, ss, |es|);
    NothingDropped(ss[|es|].out, a, lateness, ws);
  }

  // ---- When the windows drop something ----------------------------------------------------------------

  /** Any output can be delivered: keys are listed somehow, and records numbered as they are accepted. */
  lemma {:induction false} Deliverable(out: seq<Out>, a: W.Assigner, lateness: nat) returns (ws: seq<W.Event>)
    ensures Delivers(out, ws) && W.Exec(a, lateness, W.Init(), ws).Some?
  {
    if out == [] {
      ws := [];
    } else {
      var n := |out| - 1;
      var us := Deliverable(out[..n], a, lateness);
      var s := W.Exec(a, lateness, W.Init(), us).value;
      var e := NextEvent(out[n], a, lateness, s);
      ws := us + [e];
      W.Extend(a, lateness, us, s, e, W.Step(a, lateness, s, e).value);
    }
  }

  lemma NextEvent(x: Out, a: W.Assigner, lateness: nat, s: W.State) returns (e: W.Event)
    ensures W.Step(a, lateness, s, e).Some?
    ensures if x.Rec? then e.Record? && e.r.ts == x.ts else e.Watermark? && e.t == x.t
  {
    if x.Mark? {
      var order := W.Listing(W.Due(s.open, if x.t > s.wm then x.t else s.wm, lateness));
      e := W.Watermark(x.t, order);
    } else {
      var r := W.Rec("", x.ts, [], |s.accepted|);
      var order := [];
      if a.Sessions? {
        order := W.Listing(W.Touching(s.open, r.key, Session(r.ts, a.gap)[0]));
      }
      e := W.Record(r, order);
    }
  }

  ghost predicate MarksBehind(out: seq<Out>, wm: int) {
    forall i :: 0 <= i < |out| && out[i].Mark? ==> out[i].t <= wm
  }

  lemma {:induction false} AtMostRecords(out: seq<Out>, a: W.Assigner, lateness: nat, ws: seq<W.Event>)
    requires Delivers(out, ws) && W.Exec(a, lateness, W.Init(), ws).Some?
    ensures var s := W.Exec(a, lateness, W.Init(), ws).value; |s.accepted| <= Records(out) && MarksBehind(out, s.wm)
  {
    if out != [] {
      var n := |out| - 1;
      AtMostRecords(out[..n], a, lateness, ws[..n]);
      var s := W.Exec(a, lateness, W.Init(), ws[..n]).value;
      var s' := W.Step(a, lateness, s, ws[n]).value;
      AtMostOne(a, lateness, s, ws[n], s');
      OneMoreMark(out[..n], out[n], s.wm, s'.wm);
      assert out[..n] + [out[n]] == out;
    }
  }

  lemma OneMoreMark(out: seq<Out>, x: Out, wm: int, wm': int)
    requires MarksBehind(out, wm) && wm <= wm' && (x.Mark? ==> x.t <= wm')
    ensures MarksBehind(out + [x], wm')
  {
  }

  lemma AtMostOne(a: W.Assigner, lateness: nat, s: W.State, e: W.Event, s': W.State)
    requires W.Step(a, lateness, s, e) == Some(s')
    ensures |s'.accepted| <= |s.accepted| + (if e.Record? then 1 else 0) && s'.wm >= s.wm
    ensures e.Watermark? ==> s'.wm >= e.t
  {
  }

  /** A last record that a watermark has passed by more than the lateness is dropped. */
  lemma LastDropped(out: seq<Out>, a: W.Assigner, lateness: nat, ws: seq<W.Event>, i: nat)
    requires Delivers(out, ws) && W.Exec(a, lateness, W.Init(), ws).Some? && out != [] && out[|out| - 1].Rec?
    requires i < |out| - 1 && out[i].Mark? && out[i].t > ZERO_TIME && out[|out| - 1].ts < out[i].t - lateness
    ensures |W.Exec(a, lateness, W.Init(), ws).value.accepted| < Records(out)
  {
    var n := |out| - 1;
    AtMostRecords(out[..n], a, lateness, ws[..n]);
    assert out[..n][i] == out[i];
  }

  /** In every run over these times with bounded disorder and partitions seen in time the windows drop nothing. */
  ghost predicate AlwaysAccepts(bound: nat, times: iset<int>, a: W.Assigner, lateness: nat) {
    forall es: seq<Event>, ss: seq<State>, ws: seq<W.Event> ::
      Run(bound, es, ss) && Over(es, times) && BoundedDisorder(bound, es) && SeenFirst(es, ss)
      && Delivers(ss[|es|].out, ws) && W.Exec(a, lateness, W.Init(), ws).Some? ==>
        |W.Exec(a, lateness, W.Init(), ws).value.accepted| == Records(ss[|es|].out)
  }

  /**
    Over any set of record times and for any assigner, the windows drop nothing if and only if each time
    is dated, or no watermark that one of them sets is ahead of another by more than the lateness.
   */
  lemma EndToEndIff(bound: nat, times: iset<int>, a: W.Assigner, lateness: nat)
    ensures AlwaysAccepts(bound, times, a, lateness) <==> DatedTimes(bound, times) || NonePassed(bound, times, lateness)
  {
    if DatedTimes(bound, times) || NonePassed(bound, times, lateness) {
      forall es: seq<Event>, ss: seq<State>, ws: seq<W.Event> |
        Run(bound, es, ss) && Over(es, times) && BoundedDisorder(bound, es) && SeenFirst(es, ss)
        && Delivers(ss[|es|].out, ws) && W.Exec(a, lateness, W.Init(), ws).Some?
        ensures |W.Exec(a, lateness, W.Init(), ws).value.accepted| == Records(ss[|es|].out) {
        if DatedTimes(bound, times) {
          EndToEnd(bound, es, ss, a, lateness, ws);
        } else {
          SafeWhenNonePassed(bound, times, es, ss, lateness);
          NothingDropped(ss[|es|].out, a, lateness, ws);
        }
      }
    } else {
      var t :| t in times && !Dated(bound, t);
      var r, u :| r in times && u in times && u - bound > ZERO_TIME && u - bound - lateness > r;
      var es, ss := PassedUndated(bound, times, t, r, u);
      var ws := Deliverable(ss[|es|].out, a, lateness);
      LastDropped(ss[|es|].out, a, lateness, ws, 2);
    }
  }
}
