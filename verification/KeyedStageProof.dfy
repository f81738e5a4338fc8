/** The parallel keyed Reduce refines the sequential one. */
module KeyedStageProof {
  import opened Prelude
  import opened AlignedMerge
  import opened KeyedStage
  import MP = AlignedMergeProof

  // ---- Sequential facts -------------------------------------------------------------

  /** What worker `w` is sent of the items `s`: its own keys' records and every marker. */
  function Sub(c: Stage, s: seq<In>, w: nat): seq<In> {
    if s == [] then []
    else Sub(c, s[..|s| - 1], w) + if s[|s| - 1].Marker? || c.Of(s[|s| - 1].d) == w then [s[|s| - 1]] else []
  }

  lemma SubAppend(c: Stage, s: seq<In>, x: In, w: nat)
    ensures Sub(c, s + [x], w) == Sub(c, s, w) + if x.Marker? || c.Of(x.d) == w then [x] else []
  {
    assert (s + [x])[..|s|] == s;
  }

  lemma SeqAppend(c: Stage, s: seq<In>, x: In)
    ensures SeqState(c, s + [x]) == OnItem(c, SeqState(c, s), x)
    ensures SeqOut(c, s + [x]) == SeqOut(c, s) + [Result(c, SeqState(c, s), x)]
  {
    assert (s + [x])[..|s|] == s;
  }

  lemma KeyAppend(s: seq<Out>, x: Out, k: Bytes)
    ensures KeyItems(s + [x], k) == if Concerns(x, k) then KeyItems(s, k) + [x] else KeyItems(s, k)
  {
    assert (s + [x])[..|s|] == s;
  }

  lemma {:induction false} SeqOutPrefix(c: Stage, s: seq<In>, j: nat)
    requires j <= |s|
    ensures SeqOut(c, s[..j]) == SeqOut(c, s)[..j]
    decreases |s|
  {
    if j < |s| {
      SeqOutPrefix(c, s[..|s| - 1], j);
      assert s[..|s| - 1][..j] == s[..j];
    } else {
      assert s[..j] == s;
    }
  }

  lemma {:induction false} KeyPrefix(a: seq<Out>, b: seq<Out>, k: Bytes)
    requires a <= b
    ensures KeyItems(a, k) <= KeyItems(b, k)
    decreases |b|
  {
    if |a| < |b| {
      KeyPrefix(a, b[..|b| - 1], k);
    } else {
      assert a == b;
    }
  }

  lemma {:induction false} StateLocal(c: Stage, s: seq<In>, w: nat, k: Bytes)
    requires c.Valid() && c.Holder(k) == w
    ensures Lookup(SeqState(c, Sub(c, s, w)), k) == Lookup(SeqState(c, s), k)
  {
    if s != [] {
      var t, x := s[..|s| - 1], s[|s| - 1];
      StateLocal(c, t, w, k);
      if x.Marker? || c.Of(x.d) == w {
        SeqAppend(c, Sub(c, t, w), x);
      } else {
        assert Sub(c, s, w) == Sub(c, t, w);
        assert c.own(c.slot(x.d)) == c.sel(x.d);
      }
    }
  }

  // ---- What one Reduce computes ------------------------------------------------------------

  /** The records of `s` with state key `k`, in order. */
  function Mine(c: Stage, s: seq<In>, k: Bytes): seq<Rec> {
    if s == [] then [] else (if s[0].Data? && c.slot(s[0].d) == k then [s[0].d] else []) + Mine(c, s[1..], k)
  }

  lemma {:induction false} MineAppend(c: Stage, s: seq<In>, x: In, k: Bytes)
    ensures Mine(c, s + [x], k) == Mine(c, s, k) + if x.Data? && c.slot(x.d) == k then [x.d] else []
  {
    if s == [] {
      assert s + [x] == [x] && [x][1..] == [];
    } else {
      assert (s + [x])[1..] == s[1..] + [x];
      MineAppend(c, s[1..], x, k);
      Assoc(if s[0].Data? && c.slot(s[0].d) == k then [s[0].d] else [], Mine(c, s[1..], k), if x.Data? && c.slot(x.d) == k then [x.d] else []);
    }
  }

  /** The accumulator of a state key is the left fold of its records. */
  lemma {:induction false} StateIsFold(c: Stage, s: seq<In>, k: Bytes)
    ensures Lookup(SeqState(c, s), k) == Foldl(c.fn, None, Mine(c, s, k))
  {
    if s != [] {
      var t, x := s[..|s| - 1], s[|s| - 1];
      assert t + [x] == s;
      StateIsFold(c, t, k);
      MineAppend(c, t, x, k);
      if x.Data? && c.slot(x.d) == k {
        FoldlAppend(c.fn, None, Mine(c, t, k), x.d);
      } else {
        assert Mine(c, t, k) + [] == Mine(c, t, k);
      }
    }
  }

  /** What Reduce has to emit for the item at `i`: for a record, the fold of its state key up to and including it. */
  function FoldAt(c: Stage, s: seq<In>, i: nat): Out
    requires i < |s|
  {
    if s[i].Data? then Data(Res(c.sel(s[i].d), Foldl(c.fn, None, Mine(c, s[..i + 1], c.slot(s[i].d))).GetOr([]))) else Marker(s[i].m)
  }

  function RunningFolds(c: Stage, s: seq<In>): (r: seq<Out>)
    ensures |r| == |s| && forall i :: 0 <= i < |s| ==> r[i] == FoldAt(c, s, i)
  {
    seq(|s|, i requires 0 <= i < |s| => FoldAt(c, s, i))
  }

  /** The output of one Reduce is the running fold of each state key, markers in place. */
  lemma OutIsFold(c: Stage, s: seq<In>)
    ensures SeqOut(c, s) == RunningFolds(c, s)
  {
    forall i | 0 <= i < |s| ensures SeqOut(c, s)[i] == FoldAt(c, s, i) {
      SeqOutAt(c, s, i);
      if s[i].Data? {
        var k := c.slot(s[i].d);
        assert s[..i + 1] == s[..i] + [s[i]];
        StateIsFold(c, s[..i], k);
        MineAppend(c, s[..i], s[i], k);
        FoldlAppend(c.fn, None, Mine(c, s[..i], k), s[i].d);
      }
    }
  }

  ghost predicate ReadsFrom(s: seq<In>, p: nat) {
    exists i :: 0 <= i < |s| && s[i].Data? && s[i].d.part == p
  }

  /** No later record is of the same partition. */
  ghost predicate LastOf(s: seq<In>, i: nat)
    requires i < |s| && s[i].Data?
  {
    forall j :: i < j < |s| && s[j].Data? ==> s[j].d.part != s[i].d.part
  }

  /** `o` holds, for exactly the partitions that `s` read, one past the offset of the last record of each. */
  ghost predicate AtEnd(s: seq<In>, o: map<nat, nat>) {
    && (forall p :: p in o <==> ReadsFrom(s, p))
    && (forall i :: 0 <= i < |s| && s[i].Data? && LastOf(s, i) ==> s[i].d.part in o && o[s[i].d.part] == s[i].d.off + 1)
  }

  lemma ReadsFromAppend(s: seq<In>, x: In, p: nat)
    ensures ReadsFrom(s + [x], p) <==> ReadsFrom(s, p) || (x.Data? && x.d.part == p)
  {
    var t := s + [x];
    if ReadsFrom(s, p) {
      var i :| 0 <= i < |s| && s[i].Data? && s[i].d.part == p;
      assert t[i] == s[i];
    }
    if x.Data? && x.d.part == p {
      assert t[|s|] == x;
    }
  }

  lemma LastAppend(s: seq<In>, x: In, i: nat)
    requires i < |s| && s[i].Data? && LastOf(s + [x], i)
    ensures LastOf(s, i) && (x.Data? ==> x.d.part != s[i].d.part)
  {
    var t := s + [x];
    assert t[i] == s[i] && t[|s|] == x;
    forall j | i < j < |s| && s[j].Data? ensures s[j].d.part != s[i].d.part {
      assert t[j] == s[j];
    }
  }

  lemma AtEndAppend(s: seq<In>, x: In, o: map<nat, nat>)
    requires AtEnd(s, o)
    ensures AtEnd(s + [x], if x.Data? then o[x.d.part := x.d.off + 1] else o)
  {
    var t, o' := s + [x], if x.Data? then o[x.d.part := x.d.off + 1] else o;
    forall p ensures p in o' <==> ReadsFrom(t, p) {
      ReadsFromAppend(s, x, p);
    }
    forall i | 0 <= i < |t| && t[i].Data? && LastOf(t, i) ensures t[i].d.part in o' && o'[t[i].d.part] == t[i].d.off + 1 {
      if i < |s| {
        LastAppend(s, x, i);
      }
    }
  }

  lemma {:induction false} PositionsAtEnd(s: seq<In>)
    ensures AtEnd(s, Positions(s))
  {
    if s != [] {
      PositionsAtEnd(s[..|s| - 1]);
      AtEndAppend(s[..|s| - 1], s[|s| - 1], Positions(s[..|s| - 1]));
      assert s[..|s| - 1] + [s[|s| - 1]] == s;
    }
  }

  predicate Concerns(x: Out, k: Bytes) {
    x.Marker? || x.d.key == k
  }

  lemma SameResult(c: Stage, a: map<Bytes, Bytes>, b: map<Bytes, Bytes>, x: In, k: Bytes)
    requires x.Data? && c.sel(x.d) == k ==> Lookup(a, c.slot(x.d)) == Lookup(b, c.slot(x.d))
    ensures Concerns(Result(c, a, x), k) == Concerns(Result(c, b, x), k)
    ensures Concerns(Result(c, a, x), k) ==> Result(c, a, x) == Result(c, b, x)
    ensures x.Data? && Route(k, c.n) != c.Of(x.d) ==> !Concerns(Result(c, a, x), k)
  {
  }

  lemma OneMore(c: Stage, t: seq<In>, x: In, w: nat, k: Bytes)
    requires Route(k, c.n) == w
    requires x.Data? && c.sel(x.d) == k ==>
               Lookup(SeqState(c, Sub(c, t, w)), c.slot(x.d)) == Lookup(SeqState(c, t), c.slot(x.d))
    requires KeyItems(SeqOut(c, Sub(c, t, w)), k) == KeyItems(SeqOut(c, t), k)
    ensures KeyItems(SeqOut(c, Sub(c, t + [x], w)), k) == KeyItems(SeqOut(c, t + [x]), k)
  {
    var own, all := SeqState(c, Sub(c, t, w)), SeqState(c, t);
    SameResult(c, own, all, x, k);
    SubAppend(c, t, x, w);
    SeqAppend(c, t, x);
    KeyAppend(SeqOut(c, t), Result(c, all, x), k);
    if x.Marker? || c.Of(x.d) == w {
      SeqAppend(c, Sub(c, t, w), x);
      KeyAppend(SeqOut(c, Sub(c, t, w)), Result(c, own, x), k);
    } else {
      assert Sub(c, t + [x], w) == Sub(c, t, w);
    }
  }

  /** Reduce is local to a key: the worker of `k` computes on its share what one Reduce computes on everything. */
  lemma {:induction false} KeyLocal(c: Stage, s: seq<In>, w: nat, k: Bytes)
    requires c.Valid() && Route(k, c.n) == w
    ensures KeyItems(SeqOut(c, Sub(c, s, w)), k) == KeyItems(SeqOut(c, s), k)
  {
    if s != [] {
      var t, x := s[..|s| - 1], s[|s| - 1];
      assert t + [x] == s;
      KeyLocal(c, t, w, k);
      if x.Data? && c.sel(x.d) == k {
        StateLocal(c, t, w, c.slot(x.d));
      }
      OneMore(c, t, x, w, k);
    }
  }

  /** A worker holds the accumulators of its own keys only. */
  lemma {:induction false} OwnKeys(c: Stage, s: seq<In>, w: nat)
    requires c.Valid()
    ensures forall k :: k in SeqState(c, Sub(c, s, w)) ==> c.Holder(k) == w
  {
    if s != [] {
      var t, x := s[..|s| - 1], s[|s| - 1];
      OwnKeys(c, t, w);
      if x.Marker? || c.Of(x.d) == w {
        SeqAppend(c, Sub(c, t, w), x);
        assert x.Data? ==> c.own(c.slot(x.d)) == c.sel(x.d);
      } else {
        assert Sub(c, s, w) == Sub(c, t, w);
      }
    }
  }

  ghost predicate Routed(c: Stage, s: seq<In>, w: nat) {
    forall i :: 0 <= i < |s| && s[i].Data? ==> c.Of(s[i].d) == w
  }

  lemma {:induction false} SubRouted(c: Stage, s: seq<In>, w: nat)
    ensures Routed(c, Sub(c, s, w), w)
  {
    if s != [] {
      SubRouted(c, s[..|s| - 1], w);
    }
  }

  lemma {:induction false} OwnResults(c: Stage, s: seq<In>, w: nat)
    requires Routed(c, s, w)
    ensures forall i :: 0 <= i < |s| && SeqOut(c, s)[i].Data? ==> Route(SeqOut(c, s)[i].d.key, c.n) == w
  {
    if s != [] {
      OwnResults(c, s[..|s| - 1], w);
    }
  }

  lemma {:induction false} SameMarks(c: Stage, s: seq<In>, w: nat)
    ensures Marks(SeqOut(c, s)) == Marks(s)
    ensures Marks(Sub(c, s, w)) == Marks(s)
  {
    if s != [] {
      var t, x := s[..|s| - 1], s[|s| - 1];
      SameMarks(c, t, w);
      MP.MarksAppend(SeqOut(c, t), Result(c, SeqState(c, t), x));
      if x.Marker? || c.Of(x.d) == w {
        MP.MarksAppend(Sub(c, t, w), x);
      } else {
        assert Sub(c, s, w) == Sub(c, t, w);
      }
    }
  }

  /** Marker `m` stands at place `p` of `s` and nowhere else. */
  ghost predicate OnlyAt(s: seq<In>, p: nat, m: Mark) {
    p < |s| && s[p] == Marker(m) && forall i :: 0 <= i < |s| && i != p ==> s[i] != Marker(m)
  }

  /** A marker that stands once in the stream cuts every worker's share at the same place. */
  lemma {:induction false} SubCut(c: Stage, s: seq<In>, w: nat, j: nat, p: nat, m: Mark)
    requires j < |Sub(c, s, w)| && Sub(c, s, w)[j] == Marker(m)
    requires OnlyAt(s, p, m)
    ensures Sub(c, s, w)[..j] == Sub(c, s[..p], w)
    decreases |s|
  {
    var t, x := s[..|s| - 1], s[|s| - 1];
    if p == |s| - 1 {
      NoMarker(c, t, w, m);
      assert Sub(c, s, w) == Sub(c, t, w) + [x];
      assert j == |Sub(c, t, w)|;
    } else {
      assert x != Marker(m);
      assert j < |Sub(c, t, w)|;
      assert OnlyAt(t, p, m);
      SubCut(c, t, w, j, p, m);
      assert t[..p] == s[..p];
    }
  }

  lemma {:induction false} NoMarker(c: Stage, s: seq<In>, w: nat, m: Mark)
    requires forall i :: 0 <= i < |s| ==> s[i] != Marker(m)
    ensures forall i :: 0 <= i < |Sub(c, s, w)| ==> Sub(c, s, w)[i] != Marker(m)
  {
    if s != [] {
      NoMarker(c, s[..|s| - 1], w, m);
    }
  }

  // ---- The invariant -------------------------------------------------------------------

  /** Barrier `id` stands where it is registered, with the positions behind what is ahead of it. */
  ghost predicate CutOk(s: Topology, id: nat) {
    && id in s.at && s.at[id] < |s.input| && s.input[s.at[id]] == Marker(Barrier(id)) && id <= s.barriers
    && id in s.registered && s.registered[id] == Positions(s.input[..s.at[id]])
  }

  /** The offset map and every registered copy of it are the positions behind the same stretch of the stream. */
  ghost predicate Injected(s: Topology) {
    && s.offsets == Positions(s.input)
    && (forall id :: id in s.at ==> CutOk(s, id))
    && (forall i :: 0 <= i < |s.input| && s.input[i].Marker? && s.input[i].m.Barrier? ==>
          s.input[i].m.id in s.at && s.at[s.input[i].m.id] == i)
  }

  /** How much of the stream worker `w` has been offered. */
  function Offered(s: Topology, w: nat): nat {
    if w < s.sentTo then s.routed + 1 else s.routed
  }

  ghost predicate Dispatched(c: Stage, s: Topology) {
    && c.Valid() && |s.clones| == c.n && |s.merge.ws| == c.n && s.routed <= |s.input|
    && (s.sentTo > 0 ==> s.sentTo < c.n && s.routed < |s.input| && s.input[s.routed].Marker?)
    && forall w :: 0 <= w < c.n ==> s.clones[w].input == Sub(c, s.input[..Offered(s, w)], w)
  }

  /** Worker `w` has run one Reduce over what it has processed. */
  ghost predicate Worked(c: Stage, s: Topology, w: nat)
    requires w < |s.clones| && w < |s.merge.ws|
  {
    var k := s.clones[w];
    && k.done <= |k.input| && (s.merge.ws[w].closed ==> AllDone(s, w))
    && s.merge.ws[w].out == SeqOut(c, k.input[..k.done]) && k.state == SeqState(c, k.input[..k.done])
  }

  /** Snapshots are the workers' shares of the state at the barrier, and no worker passes a barrier without one. */
  ghost predicate Snapped(c: Stage, s: Topology)
    requires |s.clones| == c.n
  {
    && (forall w: nat, id: nat :: (w, id) in s.snaps ==>
          w < c.n && id in s.at && s.at[id] <= |s.input| && s.snaps[(w, id)] == SeqState(c, Sub(c, s.input[..s.at[id]], w)))
    && (forall w: nat, j: nat :: w < c.n && j < s.clones[w].done && j < |s.clones[w].input| ==> Passed(s, w, s.clones[w].input[j]))
  }

  ghost predicate Passed(s: Topology, w: nat, x: In) {
    x.Marker? && x.m.Barrier? ==> (w, x.m.id) in s.snaps
  }

  ghost predicate Inv(c: Stage, s: Topology) {
    && Injected(s) && Dispatched(c, s)
    && (forall w: nat :: w < c.n ==> Worked(c, s, w))
    && Snapped(c, s) && MP.Inv(s.merge)
  }

  lemma InitialInv(c: Stage, s: Topology)
    requires c.Valid() && Start(c, s)
    ensures Inv(c, s)
  {
    MP.InitialInv(s.merge);
    assert s.input[..0] == [];
    forall w: nat | w < c.n ensures Worked(c, s, w) {
      assert s.clones[w].input[..0] == [];
    }
  }

  // ---- What depends on what -------------------------------------------------------------------

  lemma InjectedSame(s: Topology, s': Topology)
    requires Injected(s) && s'.input == s.input && s'.at == s.at && s'.registered == s.registered
    requires s'.offsets == s.offsets && s'.barriers == s.barriers
    ensures Injected(s')
  {
    forall id | id in s'.at ensures CutOk(s', id) {
      assert CutOk(s, id);
    }
  }

  lemma SnappedSame(c: Stage, s: Topology, s': Topology)
    requires |s.clones| == c.n && Snapped(c, s)
    requires s'.input == s.input && s'.at == s.at && s'.snaps == s.snaps && s'.clones == s.clones
    ensures Snapped(c, s')
  {
    assert forall w: nat, x :: Passed(s', w, x) == Passed(s, w, x);
  }

  /** A worker that has processed nothing more is where it was. */
  lemma WorkedSame(c: Stage, s: Topology, s': Topology, w: nat)
    requires w < |s.clones| && w < |s.merge.ws| && Worked(c, s, w) && w < |s'.clones| && w < |s'.merge.ws| && s'.clones[w] == s.clones[w]
    requires s'.merge.ws[w].out == s.merge.ws[w].out && (s'.merge.ws[w].closed ==> AllDone(s', w))
    ensures Worked(c, s', w)
  {
  }

  // ---- Injecting -----------------------------------------------------------------------------

  lemma PositionsAppend(s: seq<In>, x: In)
    ensures Positions(s + [x]) == if x.Data? then Positions(s)[x.d.part := x.d.off + 1] else Positions(s)
  {
    assert (s + [x])[..|s|] == s;
  }

  lemma InjectOffsets(s: Topology, l: Move)
    requires s.offsets == Positions(s.input) && Injects(l)
    ensures Inject(s, l).offsets == Positions(Inject(s, l).input)
  {
    var x: In := if l.InjectRecord? then Data(l.r) else if l.InjectWatermark? then Marker(Watermark(l.time)) else Marker(Barrier(s.barriers + 1));
    PositionsAppend(s.input, x);
    assert Inject(s, l).input == s.input + [x];
  }

  lemma InjectOldCut(s: Topology, l: Move, id: nat)
    requires CutOk(s, id) && Injects(l)
    ensures CutOk(Inject(s, l), id)
  {
    assert Inject(s, l).input[..s.at[id]] == s.input[..s.at[id]];
  }

  lemma InjectNewCut(s: Topology)
    requires s.offsets == Positions(s.input)
    ensures CutOk(Inject(s, InjectBarrier), s.barriers + 1)
  {
    var s' := Inject(s, InjectBarrier);
    assert s'.input[..|s.input|] == s.input;
  }

  lemma InjectCut(s: Topology, l: Move, id: nat)
    requires Injected(s) && Injects(l) && id in Inject(s, l).at
    ensures CutOk(Inject(s, l), id)
  {
    if l.InjectBarrier? && id == s.barriers + 1 {
      InjectNewCut(s);
    } else {
      assert CutOk(s, id);
      InjectOldCut(s, l, id);
    }
  }

  lemma InjectInjected(s: Topology, l: Move)
    requires Injected(s) && Injects(l)
    ensures Injected(Inject(s, l))
  {
    var s' := Inject(s, l);
    InjectOffsets(s, l);
    forall id | id in s'.at ensures CutOk(s', id) {
      InjectCut(s, l, id);
    }
  }

  lemma InjectWorked(c: Stage, s: Topology, l: Move, w: nat)
    requires !s.ended && Dispatched(c, s) && w < c.n && Worked(c, s, w) && Injects(l)
    ensures Worked(c, Inject(s, l), w) && Offered(Inject(s, l), w) == Offered(s, w) <= |s.input|
    ensures Inject(s, l).input[..Offered(s, w)] == s.input[..Offered(s, w)]
  {
  }

  lemma InjectSnapped(c: Stage, s: Topology, l: Move)
    requires Injected(s) && |s.clones| == c.n && Snapped(c, s) && Injects(l)
    ensures Snapped(c, Inject(s, l))
  {
    var s' := Inject(s, l);
    forall w: nat, id: nat | (w, id) in s.snaps
      ensures id in s'.at && s'.at[id] == s.at[id] && s'.input[..s'.at[id]] == s.input[..s.at[id]] {
    }
    assert forall w: nat, x :: Passed(s, w, x) ==> Passed(s', w, x);
  }

  lemma InjectKeeps(c: Stage, s: Topology, l: Move)
    requires Inv(c, s) && Injects(l) && !s.ended
    ensures Inv(c, Inject(s, l))
  {
    var s' := Inject(s, l);
    InjectInjected(s, l);
    InjectSnapped(c, s, l);
    forall w: nat | w < c.n ensures Worked(c, s', w) && s'.clones[w].input == Sub(c, s'.input[..Offered(s', w)], w) {
      assert Worked(c, s, w);
      InjectWorked(c, s, l, w);
    }
  }

  // ---- Routing -------------------------------------------------------------------------------

  lemma ShareAppend(c: Stage, s: seq<In>, p: nat, w: nat)
    requires p < |s|
    ensures Sub(c, s[..p + 1], w) == if s[p].Marker? || c.Of(s[p].d) == w then Sub(c, s[..p], w) + [s[p]] else Sub(c, s[..p], w)
  {
    assert s[..p + 1] == s[..p] + [s[p]];
    SubAppend(c, s[..p], s[p], w);
  }

  lemma DispatchOffers(c: Stage, s: Topology, w: nat)
    requires Dispatched(c, s) && Dispatch(c, s).Some? && w < c.n
    ensures var s', x := Dispatch(c, s).value, s.input[s.routed];
            var to := if x.Data? then c.Of(x.d) else s.sentTo;
            && s'.clones[w] == (if w == to then s.clones[w].(input := s.clones[w].input + [x]) else s.clones[w])
            && Offered(s', w) == if x.Data? || w == to then s.routed + 1 else Offered(s, w)
    ensures Offered(s, w) == s.routed || (s.input[s.routed].Marker? && w < s.sentTo && Offered(s, w) == s.routed + 1)
  {
  }

  lemma DispatchShare(c: Stage, s: Topology, w: nat)
    requires Dispatched(c, s) && Dispatch(c, s).Some? && w < c.n
    ensures var s' := Dispatch(c, s).value;
            && s.clones[w].input <= s'.clones[w].input && s'.clones[w].done == s.clones[w].done && s'.clones[w].state == s.clones[w].state
            && Offered(s', w) <= |s.input|
            && s'.clones[w].input == Sub(c, s.input[..Offered(s', w)], w)
  {
    DispatchOffers(c, s, w);
    ShareAppend(c, s.input, s.routed, w);
  }

  lemma DispatchWorked(c: Stage, s: Topology, w: nat)
    requires Dispatched(c, s) && Dispatch(c, s).Some? && w < c.n && Worked(c, s, w)
    ensures var s' := Dispatch(c, s).value;
            |s'.clones| == c.n && Worked(c, s', w) && s'.clones[w].input == Sub(c, s'.input[..Offered(s', w)], w)
  {
    var s' := Dispatch(c, s).value;
    DispatchForm(c, s);
    DispatchShare(c, s, w);
    assert s'.clones[w].input[..s.clones[w].done] == s.clones[w].input[..s.clones[w].done];
  }

  lemma DispatchPassed(c: Stage, s: Topology, w: nat, j: nat)
    requires Dispatched(c, s) && Snapped(c, s) && Dispatch(c, s).Some? && w < c.n && Worked(c, s, w)
    requires var s' := Dispatch(c, s).value; w < |s'.clones| && j < s'.clones[w].done && j < |s'.clones[w].input|
    ensures Passed(Dispatch(c, s).value, w, Dispatch(c, s).value.clones[w].input[j])
  {
    DispatchForm(c, s);
    DispatchShare(c, s, w);
    assert Passed(s, w, s.clones[w].input[j]);
  }

  lemma DispatchForm(c: Stage, s: Topology)
    requires Dispatch(c, s).Some?
    ensures var s' := Dispatch(c, s).value;
            s' == s.(clones := s'.clones, routed := s'.routed, sentTo := s'.sentTo) && |s'.clones| == |s.clones|
  {
  }

  lemma DispatchSnapped(c: Stage, s: Topology)
    requires Dispatched(c, s) && (forall w: nat :: w < c.n ==> Worked(c, s, w)) && Snapped(c, s) && Dispatch(c, s).Some?
    ensures |Dispatch(c, s).value.clones| == c.n && Snapped(c, Dispatch(c, s).value)
  {
    var s' := Dispatch(c, s).value;
    DispatchForm(c, s);
    forall w: nat, j: nat | w < c.n && j < s'.clones[w].done && j < |s'.clones[w].input| ensures Passed(s', w, s'.clones[w].input[j]) {
      assert Worked(c, s, w);
      DispatchPassed(c, s, w, j);
    }
  }

  lemma DispatchDispatched(c: Stage, s: Topology)
    requires Dispatched(c, s) && (forall w: nat :: w < c.n ==> Worked(c, s, w)) && Dispatch(c, s).Some?
    ensures Dispatched(c, Dispatch(c, s).value) && forall w: nat :: w < c.n ==> Worked(c, Dispatch(c, s).value, w)
  {
    var s' := Dispatch(c, s).value;
    DispatchForm(c, s);
    forall w: nat | w < c.n ensures Worked(c, s', w) && s'.clones[w].input == Sub(c, s'.input[..Offered(s', w)], w) {
      assert Worked(c, s, w);
      DispatchWorked(c, s, w);
    }
  }

  lemma DispatchKeeps(c: Stage, s: Topology)
    requires Inv(c, s) && Dispatch(c, s).Some?
    ensures Inv(c, Dispatch(c, s).value)
  {
    DispatchForm(c, s);
    InjectedSame(s, Dispatch(c, s).value);
    DispatchSnapped(c, s);
    DispatchDispatched(c, s);
  }

  // ---- Working -------------------------------------------------------------------------------

  /** All workers' markers are taken from the one stream, in its order. */
  lemma OneStream(c: Stage, s: Topology)
    requires Dispatched(c, s) && forall w: nat :: w < c.n ==> Worked(c, s, w)
    ensures SameMarkers(s.merge.ws)
  {
    forall w: nat | w < c.n
      ensures Marks(s.merge.ws[w].out) <= Marks(s.input) && (s.merge.ws[w].closed ==> Marks(s.merge.ws[w].out) == Marks(s.input)) {
      assert Worked(c, s, w);
      OfStream(c, s, w);
    }
  }

  lemma OfStream(c: Stage, s: Topology, w: nat)
    requires Dispatched(c, s) && w < c.n && Worked(c, s, w)
    ensures Marks(s.merge.ws[w].out) <= Marks(s.input)
    ensures s.merge.ws[w].closed ==> Marks(s.merge.ws[w].out) == Marks(s.input)
  {
    assert s.merge.ws[w].closed ==> s.clones[w].input[..s.clones[w].done] == s.clones[w].input && s.input[..Offered(s, w)] == s.input;
    var k := s.clones[w];
    var offered := s.input[..Offered(s, w)];
    SameMarks(c, k.input[..k.done], w);
    MP.MarksPrefix(k.input[..k.done], k.input);
    SameMarks(c, offered, w);
    MP.MarksPrefix(offered, s.input);
  }

  lemma ProcessWorked(c: Stage, s: Topology, w: nat, v: nat)
    requires Process(c, s, w).Some? && v < |s.clones| && v < |s.merge.ws| && Worked(c, s, v)
    ensures v < |Process(c, s, w).value.clones| && v < |Process(c, s, w).value.merge.ws|
    ensures Worked(c, Process(c, s, w).value, v)
  {
    if v == w {
      var k := s.clones[w];
      assert k.input[..k.done + 1] == k.input[..k.done] + [k.input[k.done]];
      SeqAppend(c, k.input[..k.done], k.input[k.done]);
    }
  }

  /** What a worker has processed ahead of a barrier is its share of the stream ahead of it. */
  lemma BarrierShare(c: Stage, s: Topology, w: nat, j: nat)
    requires Injected(s) && Dispatched(c, s) && w < c.n && j < |s.clones[w].input|
    requires s.clones[w].input[j].Marker? && s.clones[w].input[j].m.Barrier?
    ensures var id := s.clones[w].input[j].m.id;
            id in s.at && s.clones[w].input[..j] == Sub(c, s.input[..s.at[id]], w)
  {
    var m := s.clones[w].input[j].m;
    var t := s.input[..Offered(s, w)];
    if m.id in s.at && s.at[m.id] < |t| {
      assert OnlyAt(t, s.at[m.id], m);
      SubCut(c, t, w, j, s.at[m.id], m);
      assert t[..s.at[m.id]] == s.input[..s.at[m.id]];
    } else {
      NoMarker(c, t, w, m);
      assert false;
    }
  }

  lemma ProcessSnapped(c: Stage, s: Topology, w: nat)
    requires Injected(s) && Dispatched(c, s) && w < c.n && Worked(c, s, w) && Snapped(c, s) && Process(c, s, w).Some?
    ensures Snapped(c, Process(c, s, w).value)
  {
    var s' := Process(c, s, w).value;
    ProcessShares(c, s, w);
    forall v: nat, j: nat | v < c.n && j < s'.clones[v].done && j < |s'.clones[v].input| ensures Passed(s', v, s'.clones[v].input[j]) {
      if v != w || j < s.clones[w].done {
        assert Passed(s, v, s.clones[v].input[j]);
      }
    }
  }

  /** A snapshot taken at a barrier is the worker's share of the state there. */
  lemma ProcessShares(c: Stage, s: Topology, w: nat)
    requires Injected(s) && Dispatched(c, s) && w < c.n && Worked(c, s, w) && Snapped(c, s) && Process(c, s, w).Some?
    ensures var s' := Process(c, s, w).value;
            forall v: nat, id: nat :: (v, id) in s'.snaps ==>
              v < c.n && id in s.at && s.at[id] <= |s.input| && s'.snaps[(v, id)] == SeqState(c, Sub(c, s.input[..s.at[id]], v))
  {
    var k := s.clones[w];
    var x := k.input[k.done];
    if x.Marker? && x.m.Barrier? {
      BarrierShare(c, s, w, k.done);
    }
  }

  lemma DispatchedSame(c: Stage, s: Topology, s': Topology)
    requires Dispatched(c, s) && s'.input == s.input && s'.routed == s.routed && s'.sentTo == s.sentTo
    requires |s'.clones| == |s.clones| && |s'.merge.ws| == |s.merge.ws|
    requires forall w :: 0 <= w < |s.clones| ==> s'.clones[w].input == s.clones[w].input
    ensures Dispatched(c, s')
  {
  }

  lemma ProcessWorkers(c: Stage, s: Topology, w: nat)
    requires Dispatched(c, s) && (forall v: nat :: v < c.n ==> Worked(c, s, v)) && Process(c, s, w).Some?
    ensures Dispatched(c, Process(c, s, w).value) && forall v: nat :: v < c.n ==> Worked(c, Process(c, s, w).value, v)
  {
    var s' := Process(c, s, w).value;
    DispatchedSame(c, s, s');
    forall v: nat | v < c.n ensures Worked(c, s', v) {
      assert Worked(c, s, v);
      ProcessWorked(c, s, w, v);
    }
  }

  lemma ProcessMerge(c: Stage, s: Topology, w: nat)
    requires MP.Inv(s.merge) && Process(c, s, w).Some? && SameMarkers(Process(c, s, w).value.merge.ws)
    ensures MP.Inv(Process(c, s, w).value.merge)
  {
    MP.FeedKeeps(s.merge, Emit(w, Result(c, s.clones[w].state, s.clones[w].input[s.clones[w].done])));
  }

  lemma ProcessKeeps(c: Stage, s: Topology, w: nat)
    requires Inv(c, s) && Process(c, s, w).Some?
    ensures Inv(c, Process(c, s, w).value)
  {
    var s' := Process(c, s, w).value;
    ProcessWorkers(c, s, w);
    assert Worked(c, s, w);
    ProcessSnapped(c, s, w);
    InjectedSame(s, s');
    OneStream(c, s');
    ProcessMerge(c, s, w);
  }

  // ---- The end of the input ----------------------------------------------------------------------

  lemma EndKeeps(c: Stage, s: Topology)
    requires Inv(c, s)
    ensures Inv(c, s.(ended := true))
  {
    var s' := s.(ended := true);
    forall w: nat | w < c.n ensures Worked(c, s', w) {
      assert Worked(c, s, w);
      WorkedSame(c, s, s', w);
    }
    InjectedSame(s, s');
    SnappedSame(c, s, s');
  }

  lemma ShutKeeps(c: Stage, s: Topology, w: nat)
    requires Inv(c, s) && Shut(s, w).Some?
    ensures Inv(c, Shut(s, w).value)
  {
    var s' := Shut(s, w).value;
    forall v: nat | v < c.n ensures Worked(c, s', v) {
      assert Worked(c, s, v);
      WorkedSame(c, s, s', v);
    }
    OneStream(c, s');
    MP.FeedKeeps(s.merge, Close(w));
    InjectedSame(s, s');
    SnappedSame(c, s, s');
  }

  // ---- Whole runs ------------------------------------------------------------------------------

  lemma MergeFrame<D, M>(cap: nat, s: AlignedMerge.State<D, M>, l: AlignedMerge.Label<D, M>)
    requires !l.Emit? && !l.Close? && AlignedMerge.Step(cap, s, l).Some?
    ensures var s' := AlignedMerge.Step(cap, s, l).value;
            |s'.ws| == |s.ws| && forall w :: 0 <= w < |s.ws| ==> s'.ws[w].out == s.ws[w].out && s'.ws[w].closed == s.ws[w].closed
  {
  }

  lemma MergeKeeps(c: Stage, cap: nat, s: Topology, l: Move)
    requires Inv(c, s) && l.MergeStep? && Next(c, cap, s, l).Some?
    ensures Inv(c, Next(c, cap, s, l).value)
  {
    var s' := Next(c, cap, s, l).value;
    MergeFrame(cap, s.merge, l.l);
    MP.StepKeeps(cap, s.merge, l.l);
    forall w: nat | w < c.n ensures Worked(c, s', w) {
      assert Worked(c, s, w);
      WorkedSame(c, s, s', w);
    }
    InjectedSame(s, s');
    SnappedSame(c, s, s');
  }

  lemma StepKeeps(c: Stage, cap: nat, s: Topology, l: Move)
    requires Inv(c, s) && Next(c, cap, s, l).Some?
    ensures Inv(c, Next(c, cap, s, l).value)
  {
    match l
    case RouteOne => DispatchKeeps(c, s);
    case Work(w) => ProcessKeeps(c, s, w);
    case CloseWorker(w) => ShutKeeps(c, s, w);
    case EndInput => EndKeeps(c, s);
    case MergeStep(_) => MergeKeeps(c, cap, s, l);
    case _ => InjectKeeps(c, s, l);
  }

  lemma {:induction false} RunKeeps(c: Stage, cap: nat, s: Topology, ls: seq<Move>)
    requires c.Valid() && Start(c, s) && Run(c, cap, s, ls).Some?
    ensures Inv(c, Run(c, cap, s, ls).value)
  {
    if ls == [] {
      InitialInv(c, s);
    } else {
      RunKeeps(c, cap, s, ls[..|ls| - 1]);
      StepKeeps(c, cap, Run(c, cap, s, ls[..|ls| - 1]).value, ls[|ls| - 1]);
    }
  }

  // ---- Refinement -------------------------------------------------------------------------------

  lemma {:induction false} ViewHas<D, M>(q: seq<Tagged<D, M>>, i: nat)
    requires i < |q|
    ensures q[i].x in View(q, q[i].w)
    decreases |q|
  {
    if i < |q| - 1 {
      ViewHas(q[..|q| - 1], i);
    }
  }

  /** A result in the output comes from the worker of its key. */
  lemma TagOfKey(c: Stage, s: Topology, i: nat)
    requires Inv(c, s) && i < |s.merge.out| && s.merge.out[i].x.Data?
    ensures Route(s.merge.out[i].x.d.key, c.n) == s.merge.out[i].w
  {
    var e := s.merge.out[i];
    var k := s.clones[e.w];
    MP.InvSafe(s.merge);
    ViewHas(s.merge.out, i);
    assert Worked(c, s, e.w);
    SubRouted(c, s.input[..Offered(s, e.w)], e.w);
    assert Routed(c, k.input[..k.done], e.w);
    OwnResults(c, k.input[..k.done], e.w);
  }

  /** The results of a key are all in its worker's view. */
  lemma {:induction false} KeyView(q: seq<Tagged<Res, Mark>>, w: nat, k: Bytes)
    requires forall i :: 0 <= i < |q| && q[i].x.Data? && q[i].x.d.key == k ==> q[i].w == w
    ensures KeyItems(Untag(q), k) == KeyItems(View(q, w), k)
  {
    if q != [] {
      var e := q[|q| - 1];
      KeyView(q[..|q| - 1], w, k);
      KeyAppend(Untag(q[..|q| - 1]), e.x, k);
      if e.w == w || e.x.Marker? {
        KeyAppend(View(q[..|q| - 1], w), e.x, k);
      } else {
        assert View(q, w) == View(q[..|q| - 1], w);
      }
    }
  }

  lemma KeyOfOutput(c: Stage, s: Topology, n: nat, k: Bytes)
    requires Inv(c, s) && n <= |s.merge.out|
    ensures KeyItems(Untag(s.merge.out[..n]), k) == KeyItems(View(s.merge.out[..n], Route(k, c.n)), k)
  {
    var q := s.merge.out[..n];
    forall i | 0 <= i < |q| && q[i].x.Data? && q[i].x.d.key == k ensures q[i].w == Route(k, c.n) {
      TagOfKey(c, s, i);
    }
    KeyView(q, Route(k, c.n), k);
  }

  /** What the worker of `k` has produced is what one Reduce produces for `k` on that much of the stream. */
  lemma KeyOfWorker(c: Stage, s: Topology, k: Bytes)
    requires Inv(c, s)
    ensures var w := Route(k, c.n);
            && KeyItems(s.merge.ws[w].out, k) <= KeyItems(SeqOut(c, s.input[..Offered(s, w)]), k)
            && (s.clones[w].done == |s.clones[w].input| ==>
                  KeyItems(s.merge.ws[w].out, k) == KeyItems(SeqOut(c, s.input[..Offered(s, w)]), k))
  {
    var w := Route(k, c.n);
    assert Worked(c, s, w);
    DoneItems(c, s.clones[w].input, s.clones[w].done, k);
    KeyLocal(c, s.input[..Offered(s, w)], w, k);
  }

  /** The output on a part of the input is a prefix of that on the whole. */
  lemma DoneItems(c: Stage, input: seq<In>, done: nat, k: Bytes)
    requires done <= |input|
    ensures KeyItems(SeqOut(c, input[..done]), k) <= KeyItems(SeqOut(c, input), k)
    ensures done == |input| ==> KeyItems(SeqOut(c, input[..done]), k) == KeyItems(SeqOut(c, input), k)
  {
    SeqOutPrefix(c, input, done);
    KeyPrefix(SeqOut(c, input[..done]), SeqOut(c, input), k);
    if done == |input| {
      assert input[..done] == input;
    }
  }

  /** The output of each key, with the markers around it, is that of one sequential Reduce over a prefix of the stream. */
  lemma KeyedRefines(c: Stage, s: Topology, k: Bytes)
    requires Inv(c, s)
    ensures KeyItems(Untag(s.merge.out), k) <= KeyItems(SeqOut(c, s.input), k)
  {
    var w := Route(k, c.n);
    assert s.merge.out[..|s.merge.out|] == s.merge.out;
    KeyOfOutput(c, s, |s.merge.out|, k);
    MP.InvSafe(s.merge);
    KeyPrefix(View(s.merge.out, w), s.merge.ws[w].out, k);
    KeyOfWorker(c, s, k);
    SeqOutPrefix(c, s.input, Offered(s, w));
    KeyPrefix(SeqOut(c, s.input[..Offered(s, w)]), SeqOut(c, s.input), k);
  }

  /** Nothing is on its way any more. */
  ghost predicate Idle(c: Stage, s: Topology) {
    && s.routed == |s.input| && s.sentTo == 0 && |s.clones| == c.n && |s.merge.ws| == c.n
    && forall w: nat :: w < c.n ==> s.clones[w].done == |s.clones[w].input| && View(s.merge.out, w) == s.merge.ws[w].out
  }

  /** A merge that has drained closed workers leaves nothing on its way. */
  lemma DrainedIdle(c: Stage, s: Topology)
    requires Inv(c, s) && MP.Drained(s.merge)
    ensures Idle(c, s)
  {
    forall w: nat | w < c.n ensures s.clones[w].done == |s.clones[w].input| && View(s.merge.out, w) == s.merge.ws[w].out {
      assert Worked(c, s, w);
    }
    assert Worked(c, s, 0);
  }

  /**
    Over every interleaving, each key's output is a prefix of the sequential one, and all of it
    once nothing is on its way, in particular when the workers have closed and the merge has
    drained them.
   */
  lemma ParallelRefinesSequential(c: Stage, cap: nat, s: Topology, ls: seq<Move>, k: Bytes)
    requires c.Valid() && Start(c, s) && Run(c, cap, s, ls).Some?
    ensures var t := Run(c, cap, s, ls).value;
            && KeyItems(Untag(t.merge.out), k) <= KeyItems(RunningFolds(c, t.input), k)
            && (Idle(c, t) || MP.Drained(t.merge) ==> KeyItems(Untag(t.merge.out), k) == KeyItems(RunningFolds(c, t.input), k))
  {
    RunKeeps(c, cap, s, ls);
    var t := Run(c, cap, s, ls).value;
    KeyedRefines(c, t, k);
    OutIsFold(c, t.input);
    if MP.Drained(t.merge) {
      DrainedIdle(c, t);
    }
    if Idle(c, t) {
      assert t.merge.out[..|t.merge.out|] == t.merge.out;
      KeyOfOutput(c, t, |t.merge.out|, k);
      KeyOfWorker(c, t, k);
      assert t.input[..|t.input|] == t.input;
    }
  }

  // ---- Consistent cuts -----------------------------------------------------------------------------

  /** Where barrier `id` stands on worker `w`, once it has been emitted. */
  lemma EmittedShare(c: Stage, s: Topology, i: nat, id: nat, w: nat) returns (j: nat)
    requires Inv(c, s) && i < |s.merge.out| && s.merge.out[i].x == Marker(Barrier(id)) && w < c.n
    ensures j < s.clones[w].done <= |s.clones[w].input| && s.clones[w].input[j] == Marker(Barrier(id))
    ensures View(s.merge.out[..i], w) == SeqOut(c, s.clones[w].input[..j])
  {
    MP.InvSafe(s.merge);
    MP.MarkerAligned(s.merge, i, w);
    j := |View(s.merge.out[..i], w)|;
    assert Worked(c, s, w);
    WorkedAt(c, s, w, j);
  }

  /** Where a worker's output stands, its input stands. */
  lemma WorkedAt(c: Stage, s: Topology, w: nat, j: nat)
    requires w < |s.clones| && w < |s.merge.ws| && Worked(c, s, w) && j < |s.merge.ws[w].out|
    ensures j < s.clones[w].done <= |s.clones[w].input|
    ensures s.merge.ws[w].out[..j] == SeqOut(c, s.clones[w].input[..j])
    ensures s.merge.ws[w].out[j].Marker? ==> s.clones[w].input[j] == Marker(s.merge.ws[w].out[j].m)
  {
    var t := s.clones[w].input[..s.clones[w].done];
    SeqOutPrefix(c, t, j);
    assert t[..j] == s.clones[w].input[..j];
    SeqOutAt(c, t, j);
  }

  lemma {:induction false} SeqOutAt(c: Stage, s: seq<In>, j: nat)
    requires j < |s|
    ensures SeqOut(c, s)[j] == Result(c, SeqState(c, s[..j]), s[j])
    decreases |s|
  {
    if j < |s| - 1 {
      SeqOutAt(c, s[..|s| - 1], j);
      assert s[..|s| - 1][..j] == s[..j];
    }
  }

  /** The snapshot of worker `w` holds the accumulators of its own keys behind `prefix`, and no others. */
  ghost predicate ShareAt(c: Stage, s: Topology, id: nat, w: nat, prefix: seq<In>) {
    && (w, id) in s.snaps
    && forall k :: Lookup(s.snaps[(w, id)], k) == if c.Holder(k) == w then Foldl(c.fn, None, Mine(c, prefix, k)) else None
  }

  /** The registered offsets, every worker's snapshot and the output ahead of an emitted barrier are all those of one prefix. */
  ghost predicate CutAt(c: Stage, s: Topology, i: nat, id: nat, prefix: seq<In>)
    requires i <= |s.merge.out|
  {
    && id in s.registered && AtEnd(prefix, s.registered[id])
    && (forall w: nat :: w < c.n ==> ShareAt(c, s, id, w, prefix))
    && (forall k :: KeyItems(Untag(s.merge.out[..i]), k) == KeyItems(RunningFolds(c, prefix), k))
  }

  /** Every barrier that reaches the sink is a consistent cut, whatever the interleaving. */
  lemma ConsistentCut(c: Stage, cap: nat, s: Topology, ls: seq<Move>, i: nat, id: nat)
    requires c.Valid() && Start(c, s) && Run(c, cap, s, ls).Some?
    requires i < |Run(c, cap, s, ls).value.merge.out| && Run(c, cap, s, ls).value.merge.out[i].x == Marker(Barrier(id))
    ensures var t := Run(c, cap, s, ls).value;
            exists p: nat :: p < |t.input| && t.input[p] == Marker(Barrier(id)) && CutAt(c, t, i, id, t.input[..p])
  {
    RunKeeps(c, cap, s, ls);
    var t := Run(c, cap, s, ls).value;
    SnapshotAt(c, t, i, id, 0);
    InvCut(c, t, i, id);
  }

  lemma InvCut(c: Stage, s: Topology, i: nat, id: nat)
    requires Inv(c, s) && i < |s.merge.out| && s.merge.out[i].x == Marker(Barrier(id)) && id in s.at && s.at[id] < |s.input|
    ensures CutAt(c, s, i, id, s.input[..s.at[id]])
  {
    var prefix := s.input[..s.at[id]];
    forall w: nat | w < c.n ensures ShareAt(c, s, id, w, prefix) {
      SnapshotAt(c, s, i, id, w);
      SnapshotShare(c, s, id, w, prefix);
    }
    PositionsAtEnd(prefix);
    OutIsFold(c, prefix);
    forall k ensures KeyItems(Untag(s.merge.out[..i]), k) == KeyItems(RunningFolds(c, prefix), k) {
      OutputAt(c, s, i, id, k);
    }
  }

  lemma SnapshotShare(c: Stage, s: Topology, id: nat, w: nat, prefix: seq<In>)
    requires c.Valid() && (w, id) in s.snaps && s.snaps[(w, id)] == SeqState(c, Sub(c, prefix, w))
    ensures ShareAt(c, s, id, w, prefix)
  {
    forall k ensures Lookup(s.snaps[(w, id)], k) == if c.Holder(k) == w then Foldl(c.fn, None, Mine(c, prefix, k)) else None {
      ShareOf(c, prefix, w, k);
      StateIsFold(c, prefix, k);
    }
  }

  lemma ShareOf(c: Stage, s: seq<In>, w: nat, k: Bytes)
    requires c.Valid()
    ensures Lookup(SeqState(c, Sub(c, s, w)), k) == if c.Holder(k) == w then Lookup(SeqState(c, s), k) else None
  {
    OwnKeys(c, s, w);
    if c.Holder(k) == w {
      StateLocal(c, s, w, k);
    }
  }

  lemma SnapshotAt(c: Stage, s: Topology, i: nat, id: nat, w: nat)
    requires Inv(c, s) && i < |s.merge.out| && s.merge.out[i].x == Marker(Barrier(id)) && w < c.n
    ensures (w, id) in s.snaps && id in s.at && s.at[id] < |s.input|
    ensures s.snaps[(w, id)] == SeqState(c, Sub(c, s.input[..s.at[id]], w))
  {
    var j := EmittedShare(c, s, i, id, w);
    assert Passed(s, w, s.clones[w].input[j]);
  }

  lemma OutputAt(c: Stage, s: Topology, i: nat, id: nat, k: Bytes)
    requires Inv(c, s) && i < |s.merge.out| && s.merge.out[i].x == Marker(Barrier(id))
    ensures id in s.at && s.at[id] < |s.input|
    ensures KeyItems(Untag(s.merge.out[..i]), k) == KeyItems(SeqOut(c, s.input[..s.at[id]]), k)
  {
    var w := Route(k, c.n);
    var j := EmittedShare(c, s, i, id, w);
    BarrierShare(c, s, w, j);
    KeyOfOutput(c, s, i, k);
    KeyLocal(c, s.input[..s.at[id]], w, k);
  }
}
