/** Reduce behind a window, with eviction. */
module ReduceModel {
  import opened Prelude
  import opened WindowAssign
  import opened Windows
  import opened WindowKeys
  import FW = FixedWindows
  import SW = SessionWindows
  import SR = SessionRuns

  /** A record at the reduce operator: what the window emitted, with its window and allowed lateness, if any. */
  datatype Tagged = Tagged(rec: Rec, win: Option<Win>, lateness: nat)

  type ReduceFn = (Option<Bytes>, Rec) -> Bytes

  datatype Result = Result(key: string, value: Bytes, ts: int)

  function StateKey(c: Codec, t: Tagged): string {
    if t.win.Some? then Print(c, Slot(t.rec.key, t.win.value)) else t.rec.key
  }

  /** The end of the window a state key stands for: both of its last two fields must be timestamps. */
  function WindowEnd(c: Codec, sk: string): Option<int> {
    var last := LastSlash(sk);
    if last < 0 then None
    else
      var prev := LastSlash(sk[..last]);
      if prev < 0 || c.parse(sk[prev + 1..last]).None? then None else c.parse(sk[last + 1..])
  }

  /** A state key with two bounds behind its record key ends where the second says, if both are timestamps. */
  lemma WindowEndFields(c: Codec, key: string, a: string, b: string)
    requires '/' !in a && '/' !in b
    ensures WindowEnd(c, key + "/" + a + "/" + b) == if c.parse(a).Some? then c.parse(b) else None
  {
    var s := key + "/" + a + "/" + b;
    var second := |key|;
    var last := second + 1 + |a|;
    assert s[last + 1..] == b && s[second + 1..last] == a && s[..last] == key + "/" + a;
    forall j | last < j < |s| ensures s[j] != '/' {
      assert s[j] == b[j - last - 1];
    }
    LastSlashUnique(s, last);
    forall j | second < j < last ensures s[..last][j] != '/' {
      assert s[..last][j] == a[j - second - 1];
    }
    LastSlashUnique(s[..last], second);
  }

  /** A state key with fewer than two slashes has no window. */
  lemma WindowEndNone(c: Codec, a: string, b: string)
    requires '/' !in a && '/' !in b
    ensures WindowEnd(c, a) == None && WindowEnd(c, a + "/" + b) == None
  {
    var s := a + "/" + b;
    LastSlashUnique(a, -1);
    forall j | |a| < j < |s| ensures s[j] != '/' {
      assert s[j] == b[j - |a| - 1];
    }
    LastSlashUnique(s, |a|);
    assert s[..|a|] == a;
  }

  lemma WindowEndOf(c: Codec, k: Slot)
    requires Faithful(c) && SlotFits(k)
    ensures WindowEnd(c, Print(c, k)) == Some(k.win.end)
  {
    WindowEndFields(c, k.key, c.format(k.win.start), c.format(k.win.end));
  }

  /** The frontier a windowed record proves: nothing that ends before it can receive another record. */
  function FrontierOf(end: int, lateness: nat): int {
    if lateness > 0 then end - lateness + 1 else end
  }

  predicate Stale(c: Codec, frontier: int, k: string) {
    WindowEnd(c, k).Some? && WindowEnd(c, k).value < frontier
  }

  /** The accumulators that outlive the frontier. */
  function Evict(c: Codec, acc: map<string, Bytes>, frontier: int): map<string, Bytes> {
    map k | k in acc && !Stale(c, frontier, k) :: acc[k]
  }

  function Lookup(acc: map<string, Bytes>, k: string): Option<Bytes> {
    if k in acc then Some(acc[k]) else None
  }

  datatype Totals = Totals(acc: map<string, Bytes>, frontier: int, out: seq<Result>)

  function Accumulate(c: Codec, fn: ReduceFn, s: Totals, t: Tagged): Totals {
    var sk := StateKey(c, t);
    var v := fn(Lookup(s.acc, sk), t.rec);
    s.(acc := s.acc[sk := v], out := s.out + [Result(t.rec.key, v, t.rec.ts)])
  }

  function Advance(c: Codec, s: Totals, t: Tagged): Totals {
    if t.win.None? || FrontierOf(t.win.value.end, t.lateness) <= s.frontier then s
    else
      var frontier := FrontierOf(t.win.value.end, t.lateness);
      s.(acc := Evict(c, s.acc, frontier), frontier := frontier)
  }

  /** One record: emit first, then evict. */
  function OnRecord(c: Codec, fn: ReduceFn, s: Totals, t: Tagged): Totals {
    Advance(c, Accumulate(c, fn, s, t), t)
  }

  /**
    A windowed record that moves the frontier evicts exactly the windows that can receive nothing more:
    those that end the allowed lateness or more before its own or, without lateness, before it.
   */
  lemma EvictedIff(c: Codec, fn: ReduceFn, s: Totals, t: Tagged, k: Slot)
    requires Faithful(c) && SlotFits(k) && t.win.Some? && Print(c, k) in s.acc && Print(c, k) != StateKey(c, t)
    ensures s.frontier < t.win.value.end - t.lateness ==>
              (Print(c, k) !in OnRecord(c, fn, s, t).acc <==>
                 if t.lateness > 0 then k.win.end <= t.win.value.end - t.lateness else k.win.end < t.win.value.end)
    ensures s.frontier > t.win.value.end - t.lateness ==> Print(c, k) in OnRecord(c, fn, s, t).acc
  {
    WindowEndOf(c, k);
  }

  // ---- The operator ----------------------------------------------------------------------

  class ReduceOperator {
    const codec: Codec
    const fn: ReduceFn
    var acc: map<string, Bytes>
    var frontier: int
    var out: seq<Result>

    ghost function View(): Totals
      reads this
    {
      Totals(acc, frontier, out)
    }

    constructor (codec: Codec, fn: ReduceFn)
      ensures this.codec == codec && this.fn == fn && View() == Totals(map[], ZERO_TIME, [])
    {
      this.codec, this.fn := codec, fn;
      acc, frontier, out := map[], ZERO_TIME, [];
    }

    method Process(t: Tagged)
      modifies this
      ensures View() == OnRecord(codec, fn, old(View()), t)
    {
      var sk := StateKey(codec, t);
      var v := fn(if sk in acc then Some(acc[sk]) else None, t.rec);
      acc := acc[sk := v];
      out := out + [Result(t.rec.key, v, t.rec.ts)];
      AdvanceWindowFrontier(t);
    }

    /** After the frontier moves, no stored window ends before it, and the record's own window is still stored. */
    method AdvanceWindowFrontier(t: Tagged)
      modifies this`acc, this`frontier
      ensures View() == Advance(codec, old(View()), t)
      ensures frontier != old(frontier) ==> forall k :: k in acc ==> !Stale(codec, frontier, k)
      ensures frontier >= old(frontier)
      ensures Faithful(codec) && (t.win.Some? ==> SlotFits(Slot(t.rec.key, t.win.value))) && StateKey(codec, t) in old(acc) ==>
                StateKey(codec, t) in acc
    {
      if t.win.None? {
        return;
      }
      if Faithful(codec) && SlotFits(Slot(t.rec.key, t.win.value)) {
        WindowEndOf(codec, Slot(t.rec.key, t.win.value));
      }
      var next := t.win.value.end - t.lateness;
      if t.lateness > 0 {
        next := next + 1;
      }
      if next <= frontier {
        return;
      }
      frontier := next;
      EvictClosedWindows();
    }

    method EvictClosedWindows()
      modifies this`acc
      ensures acc == Evict(codec, old(acc), frontier)
    {
      var stale := StaleKeys(codec, acc, frontier);
      for i := 0 to |stale|
        invariant forall k :: k in acc <==> k in old(acc) && k !in stale[..i]
        invariant forall k :: k in acc ==> acc[k] == old(acc)[k]
      {
        assert stale[..i + 1] == stale[..i] + [stale[i]];
        acc := acc - {stale[i]};
      }
      assert stale[..|stale|] == stale;
    }
  }

  /** The keys whose window ended before the frontier. */
  method StaleKeys(codec: Codec, acc: map<string, Bytes>, frontier: int) returns (stale: seq<string>)
    ensures forall k :: k in stale <==> k in acc && Stale(codec, frontier, k)
  {
    stale := [];
    var rest := acc.Keys;
    while rest != {}
      invariant rest <= acc.Keys
      invariant forall k :: k in stale <==> k in acc && k !in rest && Stale(codec, frontier, k)
      decreases |rest|
    {
      var k :| k in rest;
      rest := rest - {k};
      var end := WindowEnd(codec, k);
      if end.Some? && end.value < frontier {
        stale := stale + [k];
      }
    }
  }

  // ---- A window feeding a reduce ---------------------------------------------------------

  /** The records of one fired window, in order. */
  function Block(f: Fired, lateness: nat): (b: seq<Tagged>)
    ensures |b| == |f.recs| && forall i :: 0 <= i < |b| ==> b[i] == Tagged(f.recs[i], Some(f.slot.win), lateness)
    decreases |f.recs|
  {
    if f.recs == [] then []
    else Block(Fired(f.slot, f.recs[..|f.recs| - 1]), lateness) + [Tagged(f.recs[|f.recs| - 1], Some(f.slot.win), lateness)]
  }

  /** Run a reduce over `ts`; with `evict` off it only accumulates. */
  function Run(c: Codec, fn: ReduceFn, evict: bool, s: Totals, ts: seq<Tagged>): Totals {
    if ts == [] then s
    else
      var t := Run(c, fn, evict, s, ts[..|ts| - 1]);
      if evict then OnRecord(c, fn, t, ts[|ts| - 1]) else Accumulate(c, fn, t, ts[|ts| - 1])
  }

  /** A restart between two windows: the accumulators are restored, the frontier is not. */
  function Restarted(s: Totals, restart: bool): Totals {
    if restart then s.(frontier := ZERO_TIME) else s
  }

  /** A restarted reduce has forgotten its frontier: the next window evicts by its own end, however late the last one was. */
  lemma RestartedEvicts(c: Codec, fn: ReduceFn, s: Totals, t: Tagged, k: Slot)
    requires Faithful(c) && SlotFits(k) && t.win.Some? && Print(c, k) in s.acc && Print(c, k) != StateKey(c, t)
    requires t.win.value.end - t.lateness > ZERO_TIME
    ensures Print(c, k) !in OnRecord(c, fn, Restarted(s, true), t).acc <==>
              if t.lateness > 0 then k.win.end <= t.win.value.end - t.lateness else k.win.end < t.win.value.end
    ensures Restarted(s, false) == s
  {
    EvictedIff(c, fn, Restarted(s, true), t, k);
  }

  /** Run a reduce over the windows `fs` as they fire, restarting ahead of the windows that `restarts` marks. */
  function RunAll(c: Codec, fn: ReduceFn, evict: bool, lateness: nat, fs: seq<Fired>, restarts: nat -> bool): Totals {
    if fs == [] then Totals(map[], ZERO_TIME, [])
    else
      var n := |fs| - 1;
      Run(c, fn, evict, Restarted(RunAll(c, fn, evict, lateness, fs[..n], restarts), restarts(n)), Block(fs[n], lateness))
  }

  /** The reference: each window's records folded on their own. */
  function Folds(fn: ReduceFn, recs: seq<Rec>): seq<Result> {
    if recs == [] then []
    else
      var r := recs[|recs| - 1];
      Folds(fn, recs[..|recs| - 1]) + [Result(r.key, Fold(fn, recs).value, r.ts)]
  }

  function AllFolds(fn: ReduceFn, fs: seq<Fired>): seq<Result> {
    if fs == [] then [] else AllFolds(fn, fs[..|fs| - 1]) + Folds(fn, fs[|fs| - 1].recs)
  }

  /** The i-th result of a window is the left fold of its records up to and including the i-th. */
  lemma {:induction false} FoldsAt(fn: ReduceFn, recs: seq<Rec>, i: nat)
    requires i < |recs|
    ensures |Folds(fn, recs)| == |recs|
    ensures Folds(fn, recs)[i] == Result(recs[i].key, Foldl(fn, None, recs[..i + 1]).GetOr([]), recs[i].ts)
    decreases |recs|
  {
    FoldIsFoldl(fn, recs);
    if |recs| > 1 {
      FoldsAt(fn, recs[..|recs| - 1], if i < |recs| - 1 then i else 0);
    }
    if i < |recs| - 1 {
      assert recs[..|recs| - 1][..i + 1] == recs[..i + 1];
    } else {
      assert recs[..i + 1] == recs;
    }
  }

  ghost predicate WellFormed(f: Fired) {
    SlotFits(f.slot) && forall r :: r in f.recs ==> r.key == f.slot.key
  }

  lemma OnRecordKeeps(c: Codec, fn: ReduceFn, evict: bool, s: Totals, t: Tagged, k: Slot)
    requires Faithful(c) && SlotFits(k) && t.win == Some(k.win) && t.rec.key == k.key
    ensures var s' := if evict then OnRecord(c, fn, s, t) else Accumulate(c, fn, s, t);
            var v := fn(Lookup(s.acc, Print(c, k)), t.rec);
            && Lookup(s'.acc, Print(c, k)) == Some(v) && s'.out == s.out + [Result(k.key, v, t.rec.ts)]
            && s'.acc.Keys <= s.acc.Keys + {Print(c, k)}
  {
    WindowEndOf(c, k);
  }

  /** `s'` is `s` after the records of `f`: their folds are out, and the accumulator is the last of them. */
  ghost predicate Folded(c: Codec, fn: ReduceFn, s: Totals, f: Fired, s': Totals) {
    && s'.out == s.out + Folds(fn, f.recs) && Lookup(s'.acc, Print(c, f.slot)) == Fold(fn, f.recs)
    && s'.acc.Keys <= s.acc.Keys + {Print(c, f.slot)}
  }

  lemma FoldedNext(c: Codec, fn: ReduceFn, s: Totals, f: Fired, s0: Totals, s': Totals)
    requires f.recs != [] && Folded(c, fn, s, Fired(f.slot, f.recs[..|f.recs| - 1]), s0)
    requires var r := f.recs[|f.recs| - 1]; var v := fn(Lookup(s0.acc, Print(c, f.slot)), r);
             && Lookup(s'.acc, Print(c, f.slot)) == Some(v) && s'.out == s0.out + [Result(r.key, v, r.ts)]
             && s'.acc.Keys <= s0.acc.Keys + {Print(c, f.slot)}
    ensures Folded(c, fn, s, f, s')
  {
    var r := f.recs[|f.recs| - 1];
    var before := Folds(fn, f.recs[..|f.recs| - 1]);
    var x := Result(r.key, Fold(fn, f.recs).value, r.ts);
    assert s.out + before + [x] == s.out + (before + [x]);
  }

  /** Over one window's records the accumulator is the fold so far, whether or not others are evicted meanwhile. */
  lemma {:induction false} BlockRun(c: Codec, fn: ReduceFn, evict: bool, s: Totals, f: Fired, lateness: nat)
    requires Faithful(c) && WellFormed(f) && Print(c, f.slot) !in s.acc
    ensures Folded(c, fn, s, f, Run(c, fn, evict, s, Block(f, lateness)))
    decreases |f.recs|
  {
    if f.recs != [] {
      var g := Fired(f.slot, f.recs[..|f.recs| - 1]);
      assert WellFormed(g);
      BlockRun(c, fn, evict, s, g, lateness);
      BlockNext(c, fn, evict, s, f, lateness);
      FoldedNext(c, fn, s, f, Run(c, fn, evict, s, Block(g, lateness)), Run(c, fn, evict, s, Block(f, lateness)));
    } else {
      assert s.out + [] == s.out;
    }
  }

  lemma BlockNext(c: Codec, fn: ReduceFn, evict: bool, s: Totals, f: Fired, lateness: nat)
    requires Faithful(c) && WellFormed(f) && f.recs != []
    ensures var n := |f.recs| - 1;
            var s0 := Run(c, fn, evict, s, Block(Fired(f.slot, f.recs[..n]), lateness));
            var s' := Run(c, fn, evict, s, Block(f, lateness));
            var v := fn(Lookup(s0.acc, Print(c, f.slot)), f.recs[n]);
            && Lookup(s'.acc, Print(c, f.slot)) == Some(v) && s'.out == s0.out + [Result(f.recs[n].key, v, f.recs[n].ts)]
            && s'.acc.Keys <= s0.acc.Keys + {Print(c, f.slot)}
  {
    var b, n := Block(f, lateness), |f.recs| - 1;
    assert b[..n] == Block(Fired(f.slot, f.recs[..n]), lateness);
    assert f.recs[n] in f.recs;
    OnRecordKeeps(c, fn, evict, Run(c, fn, evict, s, b[..n]), b[n], f.slot);
  }

  /** The state keys of the windows `fs`. */
  function KeysOf(c: Codec, fs: seq<Fired>): set<string> {
    set f | f in fs :: Print(c, f.slot)
  }

  lemma KeysOfNext(c: Codec, fs: seq<Fired>)
    requires fs != []
    ensures KeysOf(c, fs[..|fs| - 1]) + {Print(c, fs[|fs| - 1].slot)} == KeysOf(c, fs)
  {
    var us, f := fs[..|fs| - 1], fs[|fs| - 1];
    assert fs == us + [f];
    assert forall g :: g in fs <==> g in us || g == f;
  }

  ghost predicate StoredOnly(c: Codec, acc: map<string, Bytes>, fs: seq<Fired>) {
    acc.Keys <= KeysOf(c, fs)
  }

  lemma {:induction false} RunAllFolds(c: Codec, fn: ReduceFn, evict: bool, lateness: nat, fs: seq<Fired>, restarts: nat -> bool)
    requires Faithful(c) && FW.Once(fs) && forall i :: 0 <= i < |fs| ==> WellFormed(fs[i])
    ensures RunAll(c, fn, evict, lateness, fs, restarts).out == AllFolds(fn, fs)
    ensures StoredOnly(c, RunAll(c, fn, evict, lateness, fs, restarts).acc, fs)
    decreases |fs|
  {
    if fs != [] {
      var n := |fs| - 1;
      RunAllFolds(c, fn, evict, lateness, fs[..n], restarts);
      var s := Restarted(RunAll(c, fn, evict, lateness, fs[..n], restarts), restarts(n));
      NotStored(c, s.acc, fs, n);
      BlockRun(c, fn, evict, s, fs[n], lateness);
      StoredNext(c, fn, s, fs, Run(c, fn, evict, s, Block(fs[n], lateness)));
    }
  }

  lemma StoredNext(c: Codec, fn: ReduceFn, s: Totals, fs: seq<Fired>, s': Totals)
    requires fs != [] && StoredOnly(c, s.acc, fs[..|fs| - 1]) && s.out == AllFolds(fn, fs[..|fs| - 1])
    requires Folded(c, fn, s, fs[|fs| - 1], s')
    ensures StoredOnly(c, s'.acc, fs) && s'.out == AllFolds(fn, fs)
  {
    KeysOfNext(c, fs);
  }

  lemma NotStored(c: Codec, acc: map<string, Bytes>, fs: seq<Fired>, n: nat)
    requires Faithful(c) && FW.Once(fs) && n < |fs| && (forall i :: 0 <= i < |fs| ==> WellFormed(fs[i]))
    requires StoredOnly(c, acc, fs[..n])
    ensures Print(c, fs[n].slot) !in acc
  {
    forall f | f in fs[..n] ensures Print(c, f.slot) != Print(c, fs[n].slot) {
      var i :| 0 <= i < n && fs[i] == f;
      assert WellFormed(fs[i]) && WellFormed(fs[n]);
      ParsePrint(c, fs[i].slot);
      ParsePrint(c, fs[n].slot);
    }
  }

  /** Eviction is invisible: behind windows that fire once, with restarts anywhere between them, the output never differs. */
  lemma EvictionInvisible(c: Codec, fn: ReduceFn, lateness: nat, fs: seq<Fired>, restarts: nat -> bool)
    requires Faithful(c) && FW.Once(fs) && forall i :: 0 <= i < |fs| ==> WellFormed(fs[i])
    ensures RunAll(c, fn, true, lateness, fs, restarts).out == RunAll(c, fn, false, lateness, fs, restarts).out == AllFolds(fn, fs)
  {
    RunAllFolds(c, fn, true, lateness, fs, restarts);
    RunAllFolds(c, fn, false, lateness, fs, restarts);
  }

  // ---- Parallel workers that evict -------------------------------------------------------------

  /** The windows whose records the router sends to worker `w`. */
  function Share(fs: seq<Fired>, route: string -> nat, w: nat): seq<Fired> {
    if fs == [] then []
    else Share(fs[..|fs| - 1], route, w) + if route(fs[|fs| - 1].slot.key) == w then [fs[|fs| - 1]] else []
  }

  /** The results of key `k`, in order. */
  function ResultsOf(out: seq<Result>, k: string): seq<Result> {
    if out == [] then [] else ResultsOf(out[..|out| - 1], k) + if out[|out| - 1].key == k then [out[|out| - 1]] else []
  }

  lemma {:induction false} ResultsConcat(a: seq<Result>, b: seq<Result>, k: string)
    ensures ResultsOf(a + b, k) == ResultsOf(a, k) + ResultsOf(b, k)
    decreases |b|
  {
    if b == [] {
      assert a + b == a;
    } else {
      var rest, x := b[..|b| - 1], b[|b| - 1];
      assert (a + b)[..|a + b| - 1] == a + rest;
      ResultsConcat(a, rest, k);
    }
  }

  /** A window emits results of its own key only. */
  lemma {:induction false} FoldsOf(fn: ReduceFn, recs: seq<Rec>, key: string, k: string)
    requires forall r :: r in recs ==> r.key == key
    ensures ResultsOf(Folds(fn, recs), k) == if key == k then Folds(fn, recs) else []
  {
    if recs != [] {
      FoldsOf(fn, recs[..|recs| - 1], key, k);
      var r := recs[|recs| - 1];
      ResultsConcat(Folds(fn, recs[..|recs| - 1]), [Result(r.key, Fold(fn, recs).value, r.ts)], k);
    }
  }

  lemma {:induction false} ShareIn(fs: seq<Fired>, route: string -> nat, w: nat)
    ensures forall f :: f in Share(fs, route, w) ==> f in fs
    ensures FW.Once(fs) ==> FW.Once(Share(fs, route, w))
  {
    if fs != [] {
      ShareIn(fs[..|fs| - 1], route, w);
      var f, share := fs[|fs| - 1], Share(fs[..|fs| - 1], route, w);
      if FW.Once(fs) {
        forall i | 0 <= i < |share| ensures share[i].slot != f.slot {
          assert share[i] in share && share[i] in fs[..|fs| - 1];
          var j :| 0 <= j < |fs| - 1 && fs[j] == share[i];
        }
      }
    }
  }

  /** The worker of key `k` folds, of key `k`, what one reduce over all windows folds. */
  lemma {:induction false} ShareFolds(fn: ReduceFn, fs: seq<Fired>, route: string -> nat, k: string)
    requires forall f :: f in fs ==> WellFormed(f)
    ensures ResultsOf(AllFolds(fn, Share(fs, route, route(k))), k) == ResultsOf(AllFolds(fn, fs), k)
  {
    if fs != [] {
      var us, f := fs[..|fs| - 1], fs[|fs| - 1];
      assert f in fs;
      ShareFolds(fn, us, route, k);
      ResultsConcat(AllFolds(fn, us), Folds(fn, f.recs), k);
      FoldsOf(fn, f.recs, f.slot.key, k);
      var share := Share(us, route, route(k));
      if route(f.slot.key) == route(k) {
        assert (share + [f])[..|share|] == share;
        ResultsConcat(AllFolds(fn, share), Folds(fn, f.recs), k);
      } else {
        assert Share(fs, route, route(k)) == share;
      }
    }
  }

  /**
    Behind windows that fire once, workers that each evict by their own frontier, and restart when
    they like, emit of every key what one evicting reduce over all windows emits.
   */
  lemma WorkersEvict(c: Codec, fn: ReduceFn, lateness: nat, fs: seq<Fired>, route: string -> nat, k: string,
                     restarts: nat -> bool, restarts': nat -> bool)
    requires Faithful(c) && FW.Once(fs) && forall i :: 0 <= i < |fs| ==> WellFormed(fs[i])
    ensures ResultsOf(RunAll(c, fn, true, lateness, Share(fs, route, route(k)), restarts').out, k)
         == ResultsOf(RunAll(c, fn, true, lateness, fs, restarts).out, k)
  {
    var share := Share(fs, route, route(k));
    ShareIn(fs, route, route(k));
    forall i | 0 <= i < |share| ensures WellFormed(share[i]) {
      assert share[i] in share && share[i] in fs;
    }
    EvictionInvisible(c, fn, lateness, fs, restarts);
    EvictionInvisible(c, fn, lateness, share, restarts');
    ShareFolds(fn, fs, route, k);
  }

  // ---- Behind the window operator -------------------------------------------------------------

  /** What is assigned to a window is of its key, and the window has int64 bounds. */
  lemma {:induction false} AssignedKeys(assign: int -> seq<Win>, rs: seq<Rec>, k: Slot)
    ensures forall r :: r in FW.Assigned(assign, rs, k) ==> r.key == k.key
    ensures FW.Assigned(assign, rs, k) != [] ==> SlotFits(k)
  {
    if rs != [] {
      var r := rs[|rs| - 1];
      AssignedKeys(assign, rs[..|rs| - 1], k);
      CopiesOf(WrapAll(assign(r.ts)), k.win, Kept(r));
      FW.CopiesSome(WrapAll(assign(r.ts)), k.win, Kept(r));
      FW.WrappedIn(assign(r.ts), k.win);
    }
  }

  lemma {:induction false} CopiesOf(wins: seq<Win>, w: Win, r: Rec)
    ensures forall q :: q in FW.Copies(wins, w, r) ==> q == r
  {
    if wins != [] {
      CopiesOf(wins[..|wins| - 1], w, r);
    }
  }

  /** In every complete run of fixed windows feeding a reduce, eviction and restarts leave the output unchanged. */
  lemma FixedChain(c: Codec, fn: ReduceFn, assign: int -> seq<Win>, times: iset<int>, lateness: nat, es: seq<Event>, order: seq<Slot>, restarts: nat -> bool)
    requires Faithful(c) && FW.EndsAfter(assign, times) && Over(es, times) && Exec(Fixed(assign), lateness, Init(), es).Some?
    requires Flush(Exec(Fixed(assign), lateness, Init(), es).value, order).Some?
    ensures var fs := Flush(Exec(Fixed(assign), lateness, Init(), es).value, order).value.fired;
            RunAll(c, fn, true, lateness, fs, restarts).out == RunAll(c, fn, false, lateness, fs, restarts).out == AllFolds(fn, fs)
  {
    FW.FixedWindowsConserve(assign, times, lateness, es, order);
    var s := Flush(Exec(Fixed(assign), lateness, Init(), es).value, order).value;
    forall i | 0 <= i < |s.fired| ensures WellFormed(s.fired[i]) {
      AssignedKeys(assign, s.accepted, s.fired[i].slot);
    }
    EvictionInvisible(c, fn, lateness, s.fired, restarts);
  }

  lemma SessionsOnce(gap: int, s: Windows.State)
    requires gap > 0 && SW.FiredOk(gap, s)
    ensures FW.Once(s.fired)
  {
    forall i | 0 <= i < |s.fired| ensures s.fired[i].slot.win.start < s.fired[i].slot.win.end {
      SW.ClusterSpan(gap, s.fired[i].slot, s.fired[i].recs);
    }
  }

  /** The same for session windows. */
  lemma SessionChain(c: Codec, fn: ReduceFn, gap: int, times: iset<int>, lateness: nat, es: seq<Event>, order: seq<Slot>, restarts: nat -> bool)
    requires Faithful(c) && gap > 0 && SR.Places(gap, times) && Over(es, times) && Exec(Sessions(gap), lateness, Init(), es).Some?
    requires Flush(Exec(Sessions(gap), lateness, Init(), es).value, order).Some?
    ensures var fs := Flush(Exec(Sessions(gap), lateness, Init(), es).value, order).value.fired;
            RunAll(c, fn, true, lateness, fs, restarts).out == RunAll(c, fn, false, lateness, fs, restarts).out == AllFolds(fn, fs)
  {
    SR.ExecKeeps(gap, times, lateness, es);
    var s := Exec(Sessions(gap), lateness, Init(), es).value;
    SW.CloseFired(gap, s, order);
    SW.CloseHeld(s, KeptAll(s.accepted), order);
    var t := Flush(s, order).value;
    SessionsOnce(gap, t);
    forall i | 0 <= i < |t.fired| ensures WellFormed(t.fired[i]) {
      FiredFits(gap, times, t, i);
    }
    EvictionInvisible(c, fn, lateness, t.fired, restarts);
  }

  lemma FiredFits(gap: int, times: iset<int>, s: Windows.State, i: nat)
    requires gap > 0 && SR.Places(gap, times) && SW.FiredOk(gap, s) && SW.AllHeld(times, s) && i < |s.fired|
    ensures WellFormed(s.fired[i])
  {
    var f := s.fired[i];
    var q := SW.PartEnd(gap, f.slot, f.recs, true);
    var p := SW.PartEnd(gap, f.slot, f.recs, false);
    assert SW.Held(s, q) && SW.Held(s, p);
    var t := SR.HeldTime(times, s, q);
    var u := SR.HeldTime(times, s, p);
    assert SR.PlacedAt(gap, times, u);
  }
}
