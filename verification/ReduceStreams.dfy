/** A reduce behind interleaved windows. */
module ReduceStreams {
  // Behind a merge of several window workers the records of different windows interleave. Here a
  // reduce runs over any stream of records, with or without windows.

  import opened Prelude
  import opened WindowAssign
  import opened Windows
  import opened WindowKeys
  import opened ReduceModel

  const START: Totals := Totals(map[], ZERO_TIME, [])

  /** The frontier behind the records `ts`. */
  function FrontierAt(ts: seq<Tagged>): int {
    if ts == [] then ZERO_TIME
    else
      var f, t := FrontierAt(ts[..|ts| - 1]), ts[|ts| - 1];
      if t.win.None? then f else Max(f, FrontierOf(t.win.value.end, t.lateness))
  }

  /** The record at `j` moves the frontier past the window that the state key `sk` stands for. */
  predicate EvictsAt(c: Codec, ts: seq<Tagged>, j: nat, sk: string)
    requires j < |ts|
  {
    FrontierAt(ts[..j + 1]) > FrontierAt(ts[..j]) && Stale(c, FrontierAt(ts[..j + 1]), sk)
  }

  /** No record evicts a state key between two records of that key. */
  ghost predicate Undisturbed(c: Codec, ts: seq<Tagged>) {
    forall i, j, k :: 0 <= i <= j < k < |ts| && StateKey(c, ts[i]) == StateKey(c, ts[k]) ==> !EvictsAt(c, ts, j, StateKey(c, ts[i]))
  }

  /** Whatever the reduce function, a reduce that evicts emits what one that never evicts emits. */
  ghost predicate Invisible(c: Codec, ts: seq<Tagged>) {
    forall fn: ReduceFn :: Run(c, fn, true, START, ts).out == Run(c, fn, false, START, ts).out
  }

  // ---- Eviction that is not seen --------------------------------------------------------------

  lemma {:induction false} RunFrontier(c: Codec, fn: ReduceFn, ts: seq<Tagged>)
    ensures Run(c, fn, true, START, ts).frontier == FrontierAt(ts)
  {
    if ts != [] {
      RunFrontier(c, fn, ts[..|ts| - 1]);
    }
  }

  /** Only keys of records are stored. */
  lemma {:induction false} StoredKeys(c: Codec, fn: ReduceFn, evict: bool, ts: seq<Tagged>, sk: string)
    requires sk in Run(c, fn, evict, START, ts).acc
    ensures exists i :: 0 <= i < |ts| && StateKey(c, ts[i]) == sk
  {
    if ts != [] {
      var n := |ts| - 1;
      if StateKey(c, ts[n]) != sk {
        StoredKeys(c, fn, evict, ts[..n], sk);
        var i :| 0 <= i < n && StateKey(c, ts[..n][i]) == sk;
        assert StateKey(c, ts[i]) == sk;
      }
    }
  }

  /** What the record at `n` does to the entry of `sk`, with eviction. */
  lemma EvictingStep(c: Codec, fn: ReduceFn, ts: seq<Tagged>, n: nat, sk: string)
    requires n < |ts|
    ensures var a, b := Run(c, fn, true, START, ts[..n]), Run(c, fn, true, START, ts[..n + 1]);
            && Lookup(b.acc, sk) == (if EvictsAt(c, ts, n, sk) then None
                                     else if sk == StateKey(c, ts[n]) then Some(fn(Lookup(a.acc, sk), ts[n].rec))
                                     else Lookup(a.acc, sk))
            && b.out == a.out + [Result(ts[n].rec.key, fn(Lookup(a.acc, StateKey(c, ts[n])), ts[n].rec), ts[n].rec.ts)]
  {
    assert ts[..n + 1][..n] == ts[..n] && ts[..n + 1][n] == ts[n];
    RunFrontier(c, fn, ts[..n]);
  }

  lemma PlainStep(c: Codec, fn: ReduceFn, ts: seq<Tagged>, n: nat, sk: string)
    requires n < |ts|
    ensures var a, b := Run(c, fn, false, START, ts[..n]), Run(c, fn, false, START, ts[..n + 1]);
            && Lookup(b.acc, sk) == (if sk == StateKey(c, ts[n]) then Some(fn(Lookup(a.acc, sk), ts[n].rec)) else Lookup(a.acc, sk))
            && b.out == a.out + [Result(ts[n].rec.key, fn(Lookup(a.acc, StateKey(c, ts[n])), ts[n].rec), ts[n].rec.ts)]
  {
    assert ts[..n + 1][..n] == ts[..n] && ts[..n + 1][n] == ts[n];
  }

  /** Both hold the same accumulator for every key that is still to come, and have emitted the same. */
  ghost predicate Agree(c: Codec, fn: ReduceFn, ts: seq<Tagged>, n: nat)
    requires n <= |ts|
  {
    var a, b := Run(c, fn, true, START, ts[..n]), Run(c, fn, false, START, ts[..n]);
    a.out == b.out && forall k :: n <= k < |ts| ==> Lookup(a.acc, StateKey(c, ts[k])) == Lookup(b.acc, StateKey(c, ts[k]))
  }

  lemma {:induction false} AgreeAt(c: Codec, fn: ReduceFn, ts: seq<Tagged>, n: nat)
    requires Undisturbed(c, ts) && n <= |ts|
    ensures Agree(c, fn, ts, n)
  {
    if n > 0 {
      AgreeAt(c, fn, ts, n - 1);
      EvictingStep(c, fn, ts, n - 1, StateKey(c, ts[n - 1]));
      PlainStep(c, fn, ts, n - 1, StateKey(c, ts[n - 1]));
      forall k | n <= k < |ts|
        ensures var sk := StateKey(c, ts[k]);
                Lookup(Run(c, fn, true, START, ts[..n]).acc, sk) == Lookup(Run(c, fn, false, START, ts[..n]).acc, sk) {
        if EvictsAt(c, ts, n - 1, StateKey(c, ts[k])) {
          NotStoredYet(c, fn, ts, n, k);
        }
        AgreeNext(c, fn, ts, n, StateKey(c, ts[k]));
      }
    }
  }

  lemma AgreeNext(c: Codec, fn: ReduceFn, ts: seq<Tagged>, n: nat, sk: string)
    requires 0 < n <= |ts|
    requires Lookup(Run(c, fn, true, START, ts[..n - 1]).acc, sk) == Lookup(Run(c, fn, false, START, ts[..n - 1]).acc, sk)
    requires EvictsAt(c, ts, n - 1, sk) ==> Lookup(Run(c, fn, false, START, ts[..n]).acc, sk).None?
    ensures Lookup(Run(c, fn, true, START, ts[..n]).acc, sk) == Lookup(Run(c, fn, false, START, ts[..n]).acc, sk)
  {
    EvictingStep(c, fn, ts, n - 1, sk);
    PlainStep(c, fn, ts, n - 1, sk);
  }

  lemma NotStoredYet(c: Codec, fn: ReduceFn, ts: seq<Tagged>, n: nat, k: nat)
    requires Undisturbed(c, ts) && 0 < n <= k < |ts| && EvictsAt(c, ts, n - 1, StateKey(c, ts[k]))
    ensures StateKey(c, ts[k]) !in Run(c, fn, false, START, ts[..n]).acc
  {
    if StateKey(c, ts[k]) in Run(c, fn, false, START, ts[..n]).acc {
      StoredKeys(c, fn, false, ts[..n], StateKey(c, ts[k]));
      assert false;
    }
  }

  // ---- Eviction that is seen ------------------------------------------------------------------

  /** Counts the records of a key, one byte each. */
  function Tick(acc: Option<Bytes>, r: Rec): Bytes { acc.GetOr([]) + [0] }

  const COUNT: ReduceFn := Tick

  function Size(v: Option<Bytes>): nat { if v.Some? then |v.value| else 0 }

  /** The count that a reduce over the first `n` records holds for `sk`. */
  function Held(c: Codec, evict: bool, ts: seq<Tagged>, n: nat, sk: string): nat
    requires n <= |ts|
  {
    Size(Lookup(Run(c, COUNT, evict, START, ts[..n]).acc, sk))
  }

  lemma TickSize(v: Option<Bytes>, r: Rec)
    ensures Size(Some(COUNT(v, r))) == Size(v) + 1
  {
  }

  lemma PlainHeld(c: Codec, ts: seq<Tagged>, n: nat, sk: string)
    requires n < |ts|
    ensures Held(c, false, ts, n + 1, sk) == Held(c, false, ts, n, sk) + if StateKey(c, ts[n]) == sk then 1 else 0
  {
    PlainStep(c, COUNT, ts, n, sk);
    TickSize(Lookup(Run(c, COUNT, false, START, ts[..n]).acc, sk), ts[n].rec);
  }

  lemma EvictingHeld(c: Codec, ts: seq<Tagged>, n: nat, sk: string)
    requires n < |ts|
    ensures Held(c, true, ts, n + 1, sk) ==
              if EvictsAt(c, ts, n, sk) then 0 else Held(c, true, ts, n, sk) + if StateKey(c, ts[n]) == sk then 1 else 0
  {
    EvictingStep(c, COUNT, ts, n, sk);
    TickSize(Lookup(Run(c, COUNT, true, START, ts[..n]).acc, sk), ts[n].rec);
  }

  /** A count that is never reset, and one that is reset where `resets` says. */
  ghost predicate Counts(occurs: seq<nat>, held: seq<nat>, hits: seq<bool>, resets: seq<bool>) {
    && |occurs| == |held| == |hits| + 1 == |resets| + 1 && occurs[0] == held[0] == 0
    && (forall i :: 0 <= i < |hits| ==> occurs[i + 1] == occurs[i] + if hits[i] then 1 else 0)
    && (forall i :: 0 <= i < |hits| ==> held[i + 1] == if resets[i] then 0 else held[i] + if hits[i] then 1 else 0)
  }

  /** Behind a reset at `j` the second counts afresh. */
  lemma {:induction false} CountsAfresh(occurs: seq<nat>, held: seq<nat>, hits: seq<bool>, resets: seq<bool>, j: nat, n: nat)
    requires Counts(occurs, held, hits, resets) && j < n < |held| && resets[j]
    ensures held[n] + occurs[j + 1] <= occurs[n]
  {
    assert held[n] == if resets[n - 1] then 0 else held[n - 1] + if hits[n - 1] then 1 else 0;
    assert occurs[n] == occurs[n - 1] + if hits[n - 1] then 1 else 0;
    if n > j + 1 {
      CountsAfresh(occurs, held, hits, resets, j, n - 1);
    }
  }

  function HeldAll(c: Codec, evict: bool, ts: seq<Tagged>, sk: string): (hs: seq<nat>)
    ensures |hs| == |ts| + 1 && forall i :: 0 <= i <= |ts| ==> hs[i] == Held(c, evict, ts, i, sk)
  {
    seq(|ts| + 1, i requires 0 <= i <= |ts| => Held(c, evict, ts, i, sk))
  }

  function Hits(c: Codec, ts: seq<Tagged>, sk: string): (hs: seq<bool>)
    ensures |hs| == |ts| && forall i :: 0 <= i < |ts| ==> hs[i] == (StateKey(c, ts[i]) == sk)
  {
    seq(|ts|, i requires 0 <= i < |ts| => StateKey(c, ts[i]) == sk)
  }

  function Resets(c: Codec, ts: seq<Tagged>, sk: string): (rs: seq<bool>)
    ensures |rs| == |ts| && forall i :: 0 <= i < |ts| ==> rs[i] == EvictsAt(c, ts, i, sk)
  {
    seq(|ts|, i requires 0 <= i < |ts| => EvictsAt(c, ts, i, sk))
  }

  /** The two reduces count so. */
  lemma BothCount(c: Codec, ts: seq<Tagged>, sk: string)
    ensures Counts(HeldAll(c, false, ts, sk), HeldAll(c, true, ts, sk), Hits(c, ts, sk), Resets(c, ts, sk))
  {
    var occurs, held, hits, resets := HeldAll(c, false, ts, sk), HeldAll(c, true, ts, sk), Hits(c, ts, sk), Resets(c, ts, sk);
    forall i | 0 <= i < |ts| ensures occurs[i + 1] == occurs[i] + if hits[i] then 1 else 0 {
      PlainHeld(c, ts, i, sk);
    }
    forall i | 0 <= i < |ts| ensures held[i + 1] == if resets[i] then 0 else held[i] + if hits[i] then 1 else 0 {
      EvictingHeld(c, ts, i, sk);
    }
    NothingHeld(c, false, ts, sk);
    NothingHeld(c, true, ts, sk);
  }

  lemma NothingHeld(c: Codec, evict: bool, ts: seq<Tagged>, sk: string)
    ensures Held(c, evict, ts, 0, sk) == 0
  {
    assert ts[..0] == [];
  }

  lemma {:induction false} HitCounts(occurs: seq<nat>, held: seq<nat>, hits: seq<bool>, resets: seq<bool>, i: nat, n: nat)
    requires Counts(occurs, held, hits, resets) && i < n < |occurs| && hits[i]
    ensures occurs[n] >= 1
  {
    assert occurs[n] == occurs[n - 1] + if hits[n - 1] then 1 else 0;
    if i < n - 1 {
      HitCounts(occurs, held, hits, resets, i, n - 1);
    }
  }

  lemma OutStep(c: Codec, fn: ReduceFn, evict: bool, ts: seq<Tagged>, n: nat)
    requires n < |ts|
    ensures var a, b := Run(c, fn, evict, START, ts[..n]).out, Run(c, fn, evict, START, ts[..n + 1]).out;
            a <= b && |b| == |a| + 1
  {
    if evict {
      EvictingStep(c, fn, ts, n, "");
    } else {
      PlainStep(c, fn, ts, n, "");
    }
  }

  /** Each output has one result more than the one before it. */
  ghost predicate Chain(outs: seq<seq<Result>>) {
    && outs != [] && outs[0] == []
    && forall i :: 0 <= i < |outs| - 1 ==> outs[i] <= outs[i + 1] && |outs[i + 1]| == |outs[i]| + 1
  }

  lemma {:induction false} ChainGrows(outs: seq<seq<Result>>, k: nat, n: nat)
    requires Chain(outs) && k <= n < |outs|
    ensures outs[k] <= outs[n] && |outs[n]| == n
    decreases n
  {
    if n > 0 {
      assert outs[n - 1] <= outs[n] && |outs[n]| == |outs[n - 1]| + 1;
      ChainGrows(outs, if k < n then k else n - 1, n - 1);
    }
  }

  function OutAll(c: Codec, fn: ReduceFn, evict: bool, ts: seq<Tagged>): (outs: seq<seq<Result>>)
    ensures |outs| == |ts| + 1 && forall i :: 0 <= i <= |ts| ==> outs[i] == Run(c, fn, evict, START, ts[..i]).out
  {
    seq(|ts| + 1, i requires 0 <= i <= |ts| => Run(c, fn, evict, START, ts[..i]).out)
  }

  lemma OutGrows(c: Codec, fn: ReduceFn, evict: bool, ts: seq<Tagged>, k: nat, n: nat)
    requires k <= n <= |ts|
    ensures Run(c, fn, evict, START, ts[..k]).out <= Run(c, fn, evict, START, ts[..n]).out
    ensures |Run(c, fn, evict, START, ts[..n]).out| == n
  {
    var outs := OutAll(c, fn, evict, ts);
    forall i | 0 <= i < |outs| - 1 ensures outs[i] <= outs[i + 1] && |outs[i + 1]| == |outs[i]| + 1 {
      OutStep(c, fn, evict, ts, i);
    }
    assert outs[0] == [] by { assert ts[..0] == []; }
    ChainGrows(outs, k, n);
  }

  /** The count that comes out for a record differs when its key was evicted after an earlier record. */
  lemma Seen(c: Codec, ts: seq<Tagged>, i: nat, j: nat, k: nat)
    requires i <= j < k < |ts| && StateKey(c, ts[i]) == StateKey(c, ts[k]) && EvictsAt(c, ts, j, StateKey(c, ts[i]))
    ensures Run(c, COUNT, true, START, ts).out != Run(c, COUNT, false, START, ts).out
  {
    var sk := StateKey(c, ts[k]);
    var occurs, held, hits, resets := HeldAll(c, false, ts, sk), HeldAll(c, true, ts, sk), Hits(c, ts, sk), Resets(c, ts, sk);
    BothCount(c, ts, sk);
    CountsAfresh(occurs, held, hits, resets, j, k);
    HitCounts(occurs, held, hits, resets, i, j + 1);
    Differ(c, ts, k);
  }

  lemma Differ(c: Codec, ts: seq<Tagged>, k: nat)
    requires k < |ts| && Held(c, true, ts, k, StateKey(c, ts[k])) != Held(c, false, ts, k, StateKey(c, ts[k]))
    ensures Run(c, COUNT, true, START, ts).out != Run(c, COUNT, false, START, ts).out
  {
    OutIn(c, true, ts, k);
    OutIn(c, false, ts, k);
  }

  lemma OutIn(c: Codec, evict: bool, ts: seq<Tagged>, k: nat)
    requires k < |ts|
    ensures var out := Run(c, COUNT, evict, START, ts).out;
            k < |out| && |out[k].value| == Held(c, evict, ts, k, StateKey(c, ts[k])) + 1
  {
    OutAt(c, evict, ts, k);
    OutWhole(c, evict, ts, k + 1);
  }

  lemma OutWhole(c: Codec, evict: bool, ts: seq<Tagged>, k: nat)
    requires k <= |ts|
    ensures Run(c, COUNT, evict, START, ts[..k]).out <= Run(c, COUNT, evict, START, ts).out
  {
    OutGrows(c, COUNT, evict, ts, k, |ts|);
    assert ts[..|ts|] == ts;
  }

  /** The result of the record at `k` is one more than what is held for its key. */
  lemma OutAt(c: Codec, evict: bool, ts: seq<Tagged>, k: nat)
    requires k < |ts|
    ensures var out := Run(c, COUNT, evict, START, ts[..k + 1]).out;
            |out| == k + 1 && |out[k].value| == Held(c, evict, ts, k, StateKey(c, ts[k])) + 1
  {
    var sk := StateKey(c, ts[k]);
    OutGrows(c, COUNT, evict, ts, k, k);
    TickSize(Lookup(Run(c, COUNT, evict, START, ts[..k]).acc, sk), ts[k].rec);
    if evict {
      EvictingStep(c, COUNT, ts, k, sk);
    } else {
      PlainStep(c, COUNT, ts, k, sk);
    }
  }

  /**
    Over any stream, eviction is invisible for every reduce function if and only if no record moves
    the frontier past a window between two records of that window.
   */
  lemma InvisibleIff(c: Codec, ts: seq<Tagged>)
    ensures Invisible(c, ts) <==> Undisturbed(c, ts)
  {
    if Undisturbed(c, ts) {
      assert ts[..|ts|] == ts;
      forall fn: ReduceFn ensures Run(c, fn, true, START, ts).out == Run(c, fn, false, START, ts).out {
        AgreeAt(c, fn, ts, |ts|);
      }
    } else {
      var i, j, k :| 0 <= i <= j < k < |ts| && StateKey(c, ts[i]) == StateKey(c, ts[k]) && EvictsAt(c, ts, j, StateKey(c, ts[i]));
      Seen(c, ts, i, j, k);
    }
  }

  // ---- Streams of windowed records ------------------------------------------------------------

  /** Every record carries a window with int64 bounds. */
  ghost predicate Windowed(ts: seq<Tagged>) {
    forall i :: 0 <= i < |ts| ==> ts[i].win.Some? && SlotFits(Slot(ts[i].rec.key, ts[i].win.value))
  }

  /** If `a` and `d` are of one window, the frontier of `b` is not past its end. */
  predicate Clear(a: Tagged, b: Tagged, d: Tagged) {
    a.win == d.win && a.rec.key == d.rec.key && a.win.Some? && b.win.Some? ==>
      FrontierOf(b.win.value.end, b.lateness) <= a.win.value.end
  }

  /** No record whose frontier is past a window's end lies between two records of that window. */
  ghost predicate Unpassed(ts: seq<Tagged>) {
    forall i, j, k :: 0 <= i <= j < k < |ts| ==> Clear(ts[i], ts[j], ts[k])
  }

  lemma KeyOf(c: Codec, a: Tagged, b: Tagged)
    requires Faithful(c) && a.win.Some? && b.win.Some?
    requires SlotFits(Slot(a.rec.key, a.win.value)) && SlotFits(Slot(b.rec.key, b.win.value))
    ensures StateKey(c, a) == StateKey(c, b) <==> a.rec.key == b.rec.key && a.win == b.win
  {
    ParsePrint(c, Slot(a.rec.key, a.win.value));
    ParsePrint(c, Slot(b.rec.key, b.win.value));
  }

  /** A stream in which no window is passed while it still has records is undisturbed. */
  lemma UnpassedSuffices(c: Codec, ts: seq<Tagged>)
    requires Faithful(c) && Windowed(ts) && Unpassed(ts)
    ensures Undisturbed(c, ts)
  {
    forall i, j, k | 0 <= i <= j < k < |ts| && StateKey(c, ts[i]) == StateKey(c, ts[k])
      ensures !EvictsAt(c, ts, j, StateKey(c, ts[i])) {
      KeyOf(c, ts[i], ts[k]);
      assert Clear(ts[i], ts[j], ts[k]);
      WindowEndOf(c, Slot(ts[i].rec.key, ts[i].win.value));
      assert ts[..j + 1][..j] == ts[..j] && ts[..j + 1][j] == ts[j];
    }
  }

  /** Two windows of two workers, interleaved: the second evicts the first between its records. */
  lemma Interleaved(c: Codec)
    requires Faithful(c)
    ensures var a, b := Tagged(Rec("a", 1, [], 0), Some(Win(0, 10)), 0), Tagged(Rec("b", 11, [], 1), Some(Win(10, 20)), 0);
            Run(c, COUNT, true, START, [a, b, a]).out != Run(c, COUNT, false, START, [a, b, a]).out
  {
    var a, b := Tagged(Rec("a", 1, [], 0), Some(Win(0, 10)), 0), Tagged(Rec("b", 11, [], 1), Some(Win(10, 20)), 0);
    var ts := [a, b, a];
    WindowEndOf(c, Slot("a", Win(0, 10)));
    assert ts[..1] == [a] && ts[..2] == [a, b] && [a][..0] == [] && [a, b][..1] == [a];
    assert FrontierAt([]) == ZERO_TIME && FrontierAt([a]) == 10 && FrontierAt([a, b]) == 20;
    assert EvictsAt(c, ts, 1, StateKey(c, a));
    Seen(c, ts, 0, 1, 2);
  }

  // ---- What comes out ---------------------------------------------------------------------------

  /** No record carries a window. */
  ghost predicate Unwindowed(ts: seq<Tagged>) {
    forall i :: 0 <= i < |ts| ==> ts[i].win.None?
  }

  /** The records of `ts` of the same key and window as `t`, in order. */
  function Group(ts: seq<Tagged>, t: Tagged): seq<Rec> {
    if ts == [] then [] else (if ts[0].rec.key == t.rec.key && ts[0].win == t.win then [ts[0].rec] else []) + Group(ts[1..], t)
  }

  lemma {:induction false} GroupAppend(ts: seq<Tagged>, x: Tagged, t: Tagged)
    ensures Group(ts + [x], t) == Group(ts, t) + if x.rec.key == t.rec.key && x.win == t.win then [x.rec] else []
  {
    if ts == [] {
      assert ts + [x] == [x] && [x][1..] == [];
    } else {
      assert (ts + [x])[1..] == ts[1..] + [x];
      GroupAppend(ts[1..], x, t);
      Assoc(if ts[0].rec.key == t.rec.key && ts[0].win == t.win then [ts[0].rec] else [], Group(ts[1..], t),
            if x.rec.key == t.rec.key && x.win == t.win then [x.rec] else []);
    }
  }

  /** Records of one kind, with or without windows, share a state key exactly when they are of one group. */
  lemma SameKey(c: Codec, a: Tagged, b: Tagged)
    requires Faithful(c) && (a.win.None? <==> b.win.None?)
    requires a.win.Some? ==> SlotFits(Slot(a.rec.key, a.win.value)) && SlotFits(Slot(b.rec.key, b.win.value))
    ensures StateKey(c, a) == StateKey(c, b) <==> a.rec.key == b.rec.key && a.win == b.win
  {
    if a.win.Some? {
      KeyOf(c, a, b);
    }
  }

  /** The accumulator of a group is the left fold of its records. */
  lemma {:induction false} GroupFold(c: Codec, fn: ReduceFn, ts: seq<Tagged>, t: Tagged)
    requires Faithful(c) && (Windowed(ts + [t]) || Unwindowed(ts + [t]))
    ensures Lookup(Run(c, fn, false, START, ts).acc, StateKey(c, t)) == Foldl(fn, None, Group(ts, t))
  {
    if ts != [] {
      var us, x := ts[..|ts| - 1], ts[|ts| - 1];
      assert ts == us + [x] && (ts + [t])[|us|] == x && (ts + [t])[|ts|] == t;
      assert forall i :: 0 <= i < |us| ==> (ts + [t])[i] == (us + [t])[i];
      GroupFold(c, fn, us, t);
      SameKey(c, x, t);
      GroupAppend(us, x, t);
      if x.rec.key == t.rec.key && x.win == t.win {
        FoldlAppend(fn, None, Group(us, t), x.rec);
      } else {
        assert Group(us, t) + [] == Group(us, t);
      }
    }
  }

  /**
    A reduce that never evicts emits for each record the left fold of the records of its key and window up
    to and including it. By `InvisibleIff` so does one that evicts, on undisturbed streams.
   */
  lemma StreamFolds(c: Codec, fn: ReduceFn, ts: seq<Tagged>, i: nat)
    requires Faithful(c) && (Windowed(ts) || Unwindowed(ts)) && i < |ts|
    ensures var out := Run(c, fn, false, START, ts).out;
            && |out| == |ts|
            && out[i] == Result(ts[i].rec.key, Foldl(fn, None, Group(ts[..i + 1], ts[i])).GetOr([]), ts[i].rec.ts)
  {
    assert ts[..|ts|] == ts;
    OutGrows(c, fn, false, ts, i + 1, |ts|);
    FoldOut(c, fn, ts, i);
  }

  lemma FoldOut(c: Codec, fn: ReduceFn, ts: seq<Tagged>, i: nat)
    requires Faithful(c) && (Windowed(ts) || Unwindowed(ts)) && i < |ts|
    ensures var out := Run(c, fn, false, START, ts[..i + 1]).out;
            && |out| == i + 1
            && out[i] == Result(ts[i].rec.key, Foldl(fn, None, Group(ts[..i + 1], ts[i])).GetOr([]), ts[i].rec.ts)
  {
    assert ts[..i + 1] == ts[..i] + [ts[i]];
    assert forall j :: 0 <= j <= i ==> (ts[..i] + [ts[i]])[j] == ts[j];
    OutGrows(c, fn, false, ts, i, i);
    PlainStep(c, fn, ts, i, StateKey(c, ts[i]));
    GroupFold(c, fn, ts[..i], ts[i]);
    GroupAppend(ts[..i], ts[i], ts[i]);
    FoldlAppend(fn, None, Group(ts[..i], ts[i]), ts[i].rec);
  }

  // ---- Parallel workers -----------------------------------------------------------------------

  /** The places of the records that the router sends to worker `w`. */
  function Picks(ts: seq<Tagged>, route: string -> nat, w: nat): (ps: seq<nat>)
    ensures forall i :: 0 <= i < |ps| ==> ps[i] < |ts| && route(ts[ps[i]].rec.key) == w
    ensures forall i, j :: 0 <= i < j < |ps| ==> ps[i] < ps[j]
  {
    if ts == [] then []
    else Picks(ts[..|ts| - 1], route, w) + if route(ts[|ts| - 1].rec.key) == w then [|ts| - 1] else []
  }

  /** What the router sends to worker `w`. */
  function Sent(ts: seq<Tagged>, route: string -> nat, w: nat): (us: seq<Tagged>)
    ensures |us| == |Picks(ts, route, w)| && forall i :: 0 <= i < |us| ==> us[i] == ts[Picks(ts, route, w)[i]]
  {
    if ts == [] then [] else Sent(ts[..|ts| - 1], route, w) + if route(ts[|ts| - 1].rec.key) == w then [ts[|ts| - 1]] else []
  }

  /** A part of such a stream is such a stream. */
  lemma PartUnpassed(ts: seq<Tagged>, us: seq<Tagged>, ps: seq<nat>)
    requires Unpassed(ts) && |us| == |ps| && (forall i :: 0 <= i < |ps| ==> ps[i] < |ts| && us[i] == ts[ps[i]])
    requires forall i, j :: 0 <= i < j < |ps| ==> ps[i] < ps[j]
    ensures Unpassed(us)
  {
    forall i, j, k | 0 <= i <= j < k < |us| ensures Clear(us[i], us[j], us[k]) {
      assert ps[i] <= ps[j] < ps[k];
      assert Clear(ts[ps[i]], ts[ps[j]], ts[ps[k]]);
    }
  }

  lemma PartWindowed(ts: seq<Tagged>, us: seq<Tagged>, ps: seq<nat>)
    requires Windowed(ts) && |us| == |ps| && (forall i :: 0 <= i < |ps| ==> ps[i] < |ts| && us[i] == ts[ps[i]])
    ensures Windowed(us)
  {
  }

  lemma SentUnpassed(ts: seq<Tagged>, route: string -> nat, w: nat)
    requires Windowed(ts) && Unpassed(ts)
    ensures Windowed(Sent(ts, route, w)) && Unpassed(Sent(ts, route, w))
  {
    PartWindowed(ts, Sent(ts, route, w), Picks(ts, route, w));
    PartUnpassed(ts, Sent(ts, route, w), Picks(ts, route, w));
  }

  lemma SentNext(us: seq<Tagged>, t: Tagged, route: string -> nat, w: nat)
    ensures Sent(us + [t], route, w) == Sent(us, route, w) + if route(t.rec.key) == w then [t] else []
  {
    assert (us + [t])[..|us|] == us;
  }

  /** Without eviction a worker holds of its keys what one reduce holds, and has emitted of them the same. */
  lemma {:induction false} WorkerLocal(c: Codec, fn: ReduceFn, ts: seq<Tagged>, route: string -> nat, key: string, win: Win)
    requires Faithful(c) && Windowed(ts) && SlotFits(Slot(key, win))
    ensures var a, b := Run(c, fn, false, START, Sent(ts, route, route(key))), Run(c, fn, false, START, ts);
            Lookup(a.acc, Print(c, Slot(key, win))) == Lookup(b.acc, Print(c, Slot(key, win)))
  {
    if ts != [] {
      var us, t := ts[..|ts| - 1], ts[|ts| - 1];
      WorkerLocal(c, fn, us, route, key, win);
      KeyOf(c, t, Tagged(t.rec.(key := key), Some(win), 0));
      var sent := Sent(us, route, route(key));
      if route(t.rec.key) == route(key) {
        assert (sent + [t])[..|sent|] == sent;
      } else {
        assert Sent(ts, route, route(key)) == sent;
      }
    }
  }

  lemma {:induction false} WorkerOut(c: Codec, fn: ReduceFn, ts: seq<Tagged>, route: string -> nat, key: string)
    requires Faithful(c) && Windowed(ts)
    ensures ResultsOf(Run(c, fn, false, START, Sent(ts, route, route(key))).out, key) == ResultsOf(Run(c, fn, false, START, ts).out, key)
  {
    if ts != [] {
      var us, t := ts[..|ts| - 1], ts[|ts| - 1];
      assert ts == us + [t];
      WorkerOut(c, fn, us, route, key);
      if t.rec.key == key {
        WorkerLocal(c, fn, us, route, key, t.win.value);
      }
      SentNext(us, t, route, route(key));
      WorkerNext(c, fn, us, Sent(us, route, route(key)), t, route, key);
    }
  }

  lemma WorkerNext(c: Codec, fn: ReduceFn, us: seq<Tagged>, sent: seq<Tagged>, t: Tagged, route: string -> nat, key: string)
    requires ResultsOf(Run(c, fn, false, START, sent).out, key) == ResultsOf(Run(c, fn, false, START, us).out, key)
    requires t.rec.key == key ==>
               Lookup(Run(c, fn, false, START, sent).acc, StateKey(c, t)) == Lookup(Run(c, fn, false, START, us).acc, StateKey(c, t))
    ensures var more := sent + if route(t.rec.key) == route(key) then [t] else [];
            ResultsOf(Run(c, fn, false, START, more).out, key) == ResultsOf(Run(c, fn, false, START, us + [t]).out, key)
  {
    OneMoreOut(c, fn, us, t, key);
    if route(t.rec.key) == route(key) {
      OneMoreOut(c, fn, sent, t, key);
    } else {
      assert sent + [] == sent;
    }
  }

  /** What one more record adds to the results of `key`. */
  lemma OneMoreOut(c: Codec, fn: ReduceFn, us: seq<Tagged>, t: Tagged, key: string)
    ensures var s := Run(c, fn, false, START, us);
            ResultsOf(Run(c, fn, false, START, us + [t]).out, key)
            == ResultsOf(s.out, key) + if t.rec.key == key then [Result(key, fn(Lookup(s.acc, StateKey(c, t)), t.rec), t.rec.ts)] else []
  {
    assert (us + [t])[..|us|] == us;
    var s := Run(c, fn, false, START, us);
    var x := Result(t.rec.key, fn(Lookup(s.acc, StateKey(c, t)), t.rec), t.rec.ts);
    assert (s.out + [x])[..|s.out|] == s.out;
  }

  /**
    Over any stream in which no window is passed while it still has records, parallel workers that each
    evict by their own frontier emit of every key what one evicting reduce over the stream emits.
   */
  lemma WorkersUnpassed(c: Codec, fn: ReduceFn, ts: seq<Tagged>, route: string -> nat, key: string)
    requires Faithful(c) && Windowed(ts) && Unpassed(ts)
    ensures ResultsOf(Run(c, fn, true, START, Sent(ts, route, route(key))).out, key) == ResultsOf(Run(c, fn, true, START, ts).out, key)
  {
    var us := Sent(ts, route, route(key));
    SentUnpassed(ts, route, route(key));
    UnpassedSuffices(c, ts);
    UnpassedSuffices(c, us);
    InvisibleIff(c, ts);
    InvisibleIff(c, us);
    WorkerOut(c, fn, ts, route, key);
  }
}
