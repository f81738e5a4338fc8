/** Safety and progress of the aligned merge over every interleaving. */
module AlignedMergeProof {
  import opened Prelude
  import opened AlignedMerge

  // ---- Projections of longer sequences -------------------------------------------------

  lemma ProjAppend<D, M>(q: seq<Tagged<D, M>>, e: Tagged<D, M>, w: nat)
    ensures Proj(q + [e], w) == Proj(q, w) + if e.w == w then [e.x] else []
  {
    assert (q + [e])[..|q|] == q;
  }

  lemma ViewAppend<D, M>(q: seq<Tagged<D, M>>, e: Tagged<D, M>, w: nat)
    ensures View(q + [e], w) == View(q, w) + if e.w == w || e.x.Marker? then [e.x] else []
    ensures Emitted(q + [e]) == Emitted(q) + if e.x.Marker? then [e.x.m] else []
  {
    assert (q + [e])[..|q|] == q;
  }

  lemma MarksAppend<D, M>(s: seq<Item<D, M>>, x: Item<D, M>)
    ensures Marks(s + [x]) == Marks(s) + if x.Marker? then [x.m] else []
  {
    assert (s + [x])[..|s|] == s;
  }

  lemma {:induction false} MarksPrefix<D, M>(a: seq<Item<D, M>>, b: seq<Item<D, M>>)
    requires a <= b
    ensures Marks(a) <= Marks(b)
    decreases |b|
  {
    if |a| < |b| {
      MarksPrefix(a, b[..|b| - 1]);
    } else {
      assert a == b;
    }
  }

  lemma {:induction false} ProjPrefix<D, M>(q: seq<Tagged<D, M>>, k: nat, w: nat)
    requires k <= |q|
    ensures Proj(q[..k], w) <= Proj(q, w)
    decreases |q|
  {
    if k < |q| {
      ProjPrefix(q[..|q| - 1], k, w);
      assert q[..|q| - 1][..k] == q[..k];
    } else {
      assert q[..k] == q;
    }
  }

  /** Every worker's view carries all emitted markers. */
  lemma {:induction false} ViewMarks<D, M>(q: seq<Tagged<D, M>>, w: nat)
    ensures Marks(View(q, w)) == Emitted(q)
  {
    if q != [] {
      var e := q[|q| - 1];
      ViewMarks(q[..|q| - 1], w);
      if e.w == w || e.x.Marker? {
        MarksAppend(View(q[..|q| - 1], w), e.x);
      } else {
        assert View(q, w) == View(q[..|q| - 1], w);
      }
    }
  }

  // ---- The invariant ---------------------------------------------------------------------

  function Held<D, M>(f: Forwarder<D, M>): seq<Item<D, M>> {
    if f.Holding? then [f.x] else []
  }

  /** Items move from worker to fan-in to output without loss, duplication or reordering. */
  ghost predicate Conserved<D, M>(s: State<D, M>, w: nat)
    requires w < |s.ws| && s.took <= |s.fan|
  {
    var k := s.ws[w];
    && k.pos <= |k.out| && (k.fwd.Finished? ==> k.closed && k.pos == |k.out|)
    && Proj(s.fan, w) + Held(k.fwd) == k.out[..k.pos]
    && View(s.out, w) + k.owed == Proj(s.fan[..s.took], w)
  }

  /** Worker `w` has put its copy of the next marker into the fan-in. */
  ghost predicate Ahead<D, M>(s: State<D, M>, w: nat) {
    |Marks(Proj(s.fan, w))| == |Emitted(s.out)| + 1
  }

  /** A forwarder is parked from the moment it puts a marker until its resume arrives. */
  ghost predicate Round<D, M>(s: State<D, M>, w: nat)
    requires w < |s.ws|
  {
    var k, p := s.ws[w], Proj(s.fan, w);
    if Ahead(s, w) then k.fwd.Parked? && !k.token && (s.loop.Resuming? ==> w < s.loop.i) && p != [] && p[|p| - 1].Marker?
    else
      && |Marks(p)| == |Emitted(s.out)|
      && if s.loop.Resuming? && w >= s.loop.i then k.fwd.Parked? && !k.token else k.fwd.Parked? == k.token
  }

  /** The workers whose copy of the next marker has been counted. */
  function Owing<D, M>(ws: seq<Worker<D, M>>): set<nat> {
    set w: nat | w < |ws| && |ws[w].owed| == 1 && ws[w].owed[0].Marker?
  }

  /** What the merge loop owes while it is at each of its points. */
  ghost predicate LoopOk<D, M>(s: State<D, M>) {
    && (forall w :: 0 <= w < |s.ws| ==> |s.ws[w].owed| <= 1)
    && match s.loop
       case Receiving =>
         && s.arrived == |Owing(s.ws)| < |s.ws|
         && forall w :: 0 <= w < |s.ws| && s.ws[w].owed != [] ==> s.ws[w].owed[0].Marker?
       case Sending(v, x) =>
         && v < |s.ws| && s.ws[v].owed == [x]
         && (x.Data? ==>
               && s.arrived == |Owing(s.ws)| < |s.ws|
               && forall w :: 0 <= w < |s.ws| && w != v && s.ws[w].owed != [] ==> s.ws[w].owed[0].Marker?)
         && (x.Marker? ==> s.arrived == 0 && forall w :: 0 <= w < |s.ws| ==> s.ws[w].owed == [x])
       case Resuming(i) => i < |s.ws| && s.arrived == 0 && forall w :: 0 <= w < |s.ws| ==> s.ws[w].owed == []
  }

  ghost predicate Inv<D, M>(s: State<D, M>) {
    && |s.ws| >= 1 && s.took <= |s.fan|
    && (forall i :: 0 <= i < |s.fan| ==> s.fan[i].w < |s.ws|)
    && (forall i :: 0 <= i < |s.out| ==> s.out[i].w < |s.ws|)
    && SameMarkers(s.ws)
    && (forall w :: 0 <= w < |s.ws| ==> Conserved(s, w))
    && (forall w :: 0 <= w < |s.ws| ==> Round(s, w))
    && LoopOk(s)
  }

  lemma InitialInv<D, M>(s: State<D, M>)
    requires Initial(s)
    ensures Inv(s)
  {
    assert Owing(s.ws) == {};
    forall w | 0 <= w < |s.ws| ensures Conserved(s, w) && Round(s, w) {
      assert s.ws[w].out[..0] == [];
    }
  }

  // ---- Preservation ------------------------------------------------------------------------

  /** What a worker's copies look like from the output side. */
  lemma OwedMarks<D, M>(s: State<D, M>, w: nat)
    requires w < |s.ws| && s.took <= |s.fan| && Conserved(s, w) && Round(s, w) && |s.ws[w].owed| <= 1
    ensures Proj(s.fan[..s.took], w) <= Proj(s.fan, w) <= s.ws[w].out
    ensures Marks(Proj(s.fan[..s.took], w)) <= Marks(Proj(s.fan, w)) <= Marks(s.ws[w].out)
    ensures s.ws[w].owed == [] ==> Marks(Proj(s.fan[..s.took], w)) == Emitted(s.out)
    ensures s.ws[w].owed != [] && s.ws[w].owed[0].Marker? ==>
              Marks(Proj(s.fan[..s.took], w)) == Emitted(s.out) + [s.ws[w].owed[0].m]
  {
    var k := s.ws[w];
    ProjPrefix(s.fan, s.took, w);
    MarksPrefix(Proj(s.fan[..s.took], w), Proj(s.fan, w));
    assert Proj(s.fan, w) <= k.out[..k.pos] <= k.out;
    MarksPrefix(Proj(s.fan, w), k.out);
    ViewMarks(s.out, w);
    if k.owed != [] {
      MarksAppend(View(s.out, w), k.owed[0]);
    } else {
      assert View(s.out, w) + [] == View(s.out, w);
    }
  }

  /** A worker whose counted copy is still owed has nothing behind it in the fan-in. */
  lemma OwedIsLast<D, M>(s: State<D, M>, w: nat)
    requires w < |s.ws| && s.took <= |s.fan| && Conserved(s, w) && Round(s, w)
    requires |s.ws[w].owed| == 1 && s.ws[w].owed[0].Marker?
    ensures Ahead(s, w) && Proj(s.fan[..s.took], w) == Proj(s.fan, w)
  {
    OwedMarks(s, w);
    var t, p := Proj(s.fan[..s.took], w), Proj(s.fan, w);
    if |t| < |p| {
      var q := p[..|p| - 1];
      assert p == q + [p[|p| - 1]];
      MarksAppend(q, p[|p| - 1]);
      MarksPrefix(t, q);
      assert false;
    }
  }

  /** Worker fields that only the merge loop and the worker itself change. */
  ghost predicate SameFeed<D, M>(ws: seq<Worker<D, M>>, ws': seq<Worker<D, M>>) {
    && |ws'| == |ws|
    && forall w :: 0 <= w < |ws| ==> ws'[w].out == ws[w].out && ws'[w].closed == ws[w].closed && ws'[w].owed == ws[w].owed
  }

  lemma FeedFrame<D, M>(s: State<D, M>, s': State<D, M>)
    requires Inv(s) && SameFeed(s.ws, s'.ws) && s'.took == s.took && s'.out == s.out && s'.loop == s.loop && s'.arrived == s.arrived
    requires s.fan <= s'.fan && forall i :: 0 <= i < |s'.fan| ==> s'.fan[i].w < |s'.ws|
    requires forall w :: 0 <= w < |s.ws| ==> Conserved(s', w) && Round(s', w)
    ensures Inv(s')
  {
    assert Owing(s'.ws) == Owing(s.ws);
  }

  lemma FeedWorker<D, M>(s: State<D, M>, l: Label<D, M>, w: nat)
    requires (l.Emit? || l.Close?) && Feed(s, l).Some? && w < |s.ws| && s.took <= |s.fan| && Conserved(s, w) && Round(s, w)
    ensures Conserved(Feed(s, l).value, w) && Round(Feed(s, l).value, w)
  {
  }

  lemma FeedKeeps<D, M>(s: State<D, M>, l: Label<D, M>)
    requires Inv(s) && (l.Emit? || l.Close?) && Feed(s, l).Some?
    ensures Inv(Feed(s, l).value)
  {
    var s' := Feed(s, l).value;
    forall w | 0 <= w < |s.ws| ensures Conserved(s', w) && Round(s', w) {
      assert Conserved(s, w) && Round(s, w);
      FeedWorker(s, l, w);
    }
    FeedLoop(s, s');
  }

  /** What the loop owes depends on the owed items alone. */
  lemma FeedLoop<D, M>(s: State<D, M>, s': State<D, M>)
    requires LoopOk(s) && s'.loop == s.loop && s'.arrived == s.arrived
    requires |s'.ws| == |s.ws| && forall w :: 0 <= w < |s.ws| ==> s'.ws[w].owed == s.ws[w].owed
    ensures LoopOk(s')
  {
    assert Owing(s'.ws) == Owing(s.ws);
  }

  lemma ReadWorker<D, M>(cap: nat, s: State<D, M>, l: Label<D, M>, w: nat)
    requires (l.Read? || l.Finish? || l.Unpark?) && Forward(cap, s, l).Some?
    requires w < |s.ws| && s.took <= |s.fan| && Conserved(s, w) && Round(s, w)
    ensures Conserved(Forward(cap, s, l).value, w) && Round(Forward(cap, s, l).value, w)
  {
    var k := s.ws[w];
    if l.Read? && w == l.w {
      assert k.out[..k.pos + 1] == k.out[..k.pos] + [k.out[k.pos]];
    }
  }

  lemma ReadKeeps<D, M>(cap: nat, s: State<D, M>, l: Label<D, M>)
    requires Inv(s) && (l.Read? || l.Finish? || l.Unpark?) && Forward(cap, s, l).Some?
    ensures Inv(Forward(cap, s, l).value)
  {
    var s' := Forward(cap, s, l).value;
    assert s' == s.(ws := s'.ws) && SameFeed(s.ws, s'.ws);
    forall w | 0 <= w < |s.ws| ensures Conserved(s', w) && Round(s', w) {
      assert Conserved(s, w) && Round(s, w);
      ReadWorker(cap, s, l, w);
    }
    FeedFrame(s, s');
  }

  lemma PutOther<D, M>(cap: nat, s: State<D, M>, l: Label<D, M>, w: nat)
    requires l.Put? && Forward(cap, s, l).Some? && w != l.w
    requires w < |s.ws| && s.took <= |s.fan| && Conserved(s, w) && Round(s, w)
    ensures Conserved(Forward(cap, s, l).value, w) && Round(Forward(cap, s, l).value, w)
  {
    var s' := Forward(cap, s, l).value;
    assert s'.fan[..s.took] == s.fan[..s.took];
    ProjAppend(s.fan, Tagged(l.w, s.ws[l.w].fwd.x), w);
    assert Proj(s'.fan, w) == Proj(s.fan, w);
  }

  lemma PutOwn<D, M>(cap: nat, s: State<D, M>, l: Label<D, M>, w: nat)
    requires l.Put? && Forward(cap, s, l).Some? && w == l.w
    requires w < |s.ws| && s.took <= |s.fan| && Conserved(s, w) && Round(s, w)
    ensures Conserved(Forward(cap, s, l).value, w) && Round(Forward(cap, s, l).value, w)
  {
    var s' := Forward(cap, s, l).value;
    var x := s.ws[l.w].fwd.x;
    assert s'.fan[..s.took] == s.fan[..s.took];
    ProjAppend(s.fan, Tagged(w, x), w);
    MarksAppend(Proj(s.fan, w), x);
    var p' := Proj(s'.fan, w);
    assert p' == Proj(s.fan, w) + [x];
    assert p'[|p'| - 1] == x;
  }

  lemma PutKeeps<D, M>(cap: nat, s: State<D, M>, l: Label<D, M>)
    requires Inv(s) && l.Put? && Forward(cap, s, l).Some?
    ensures Inv(Forward(cap, s, l).value)
  {
    var s' := Forward(cap, s, l).value;
    forall w | 0 <= w < |s.ws| ensures Conserved(s', w) && Round(s', w) {
      assert Conserved(s, w) && Round(s, w);
      if w == l.w { PutOwn(cap, s, l, w); } else { PutOther(cap, s, l, w); }
    }
    FeedFrame(s, s');
  }

  // ---- The merge loop -------------------------------------------------------------------------

  lemma TakeRound<D, M>(s: State<D, M>, l: Label<D, M>, w: nat)
    requires l.Take? && Merge(s, l).Some? && w < |s.ws| && Round(s, w)
    ensures Round(Merge(s, l).value, w)
  {
  }

  lemma TakeConserved<D, M>(s: State<D, M>, l: Label<D, M>, w: nat)
    requires l.Take? && Merge(s, l).Some? && w < |s.ws| && Conserved(s, w)
    ensures Conserved(Merge(s, l).value, w)
  {
    TakeProj(s.fan, s.took, w);
    if s.fan[s.took].w == w {
      TakeOwn(s, l);
    } else {
      TakeOther(s, l, w);
    }
  }

  lemma TakeOther<D, M>(s: State<D, M>, l: Label<D, M>, w: nat)
    requires l.Take? && Merge(s, l).Some? && w < |s.ws| && Conserved(s, w) && s.fan[s.took].w != w
    requires Proj(s.fan[..s.took + 1], w) == Proj(s.fan[..s.took], w)
    ensures Conserved(Merge(s, l).value, w)
  {
    assert Merge(s, l).value.ws[w] == s.ws[w];
  }

  lemma TakeOwn<D, M>(s: State<D, M>, l: Label<D, M>)
    requires l.Take? && Merge(s, l).Some?
    requires var w, x := s.fan[s.took].w, s.fan[s.took].x;
             Conserved(s, w) && Proj(s.fan[..s.took + 1], w) == Proj(s.fan[..s.took], w) + [x]
    ensures Conserved(Merge(s, l).value, s.fan[s.took].w)
  {
    var w, x := s.fan[s.took].w, s.fan[s.took].x;
    Assoc(View(s.out, w), s.ws[w].owed, [x]);
    assert Merge(s, l).value.ws[w] == s.ws[w].(owed := s.ws[w].owed + [x]);
  }

  lemma TakeProj<D, M>(q: seq<Tagged<D, M>>, k: nat, w: nat)
    requires k < |q|
    ensures Proj(q[..k + 1], w) == if q[k].w == w then Proj(q[..k], w) + [q[k].x] else Proj(q[..k], w)
  {
    assert q[..k + 1] == q[..k] + [q[k]];
    ProjAppend(q[..k], q[k], w);
  }

  /** The worker whose item is taken has no counted copy outstanding. */
  lemma TakenOwesNothing<D, M>(s: State<D, M>)
    requires Inv(s) && s.loop.Receiving? && s.took < |s.fan|
    ensures s.ws[s.fan[s.took].w].owed == []
  {
    var v := s.fan[s.took].w;
    assert Conserved(s, v) && Round(s, v);
    if s.ws[v].owed != [] {
      OwedIsLast(s, v);
      ProjPrefix(s.fan, s.took + 1, v);
      assert s.fan[..s.took + 1] == s.fan[..s.took] + [s.fan[s.took]];
      ProjAppend(s.fan[..s.took], s.fan[s.took], v);
      assert false;
    }
  }

  lemma {:induction false} BoundedSize(a: set<nat>, n: nat)
    requires forall i :: i in a ==> i < n
    ensures |a| <= n
  {
    if n > 0 {
      BoundedSize(a - {n - 1}, n - 1);
    } else {
      assert a == {};
    }
  }

  /** A set of numbers below `n` that misses one of them has fewer than `n` elements. */
  lemma {:induction false} MissingSize(a: set<nat>, n: nat, x: nat)
    requires (forall i :: i in a ==> i < n) && x < n && x !in a
    ensures |a| < n
  {
    if x == n - 1 {
      BoundedSize(a, n - 1);
    } else {
      MissingSize(a - {n - 1}, n - 1, x);
    }
  }

  lemma CommonNext<M>(a: seq<M>, b: seq<M>, e: seq<M>, x: M, y: M)
    requires e + [x] <= a && e + [y] <= b && Comparable(a, b)
    ensures x == y
  {
    assert (e + [x])[|e|] == a[|e|] && (e + [y])[|e|] == b[|e|];
  }

  /** Two workers' copies of the next marker are the same marker. */
  lemma SameCopy<D, M>(s: State<D, M>, v: nat, w: nat)
    requires s.took <= |s.fan| && v < |s.ws| && w < |s.ws|
    requires Comparable(Marks(s.ws[v].out), Marks(s.ws[w].out))
    requires Conserved(s, v) && Round(s, v) && Conserved(s, w) && Round(s, w)
    requires |s.ws[v].owed| == 1 && s.ws[v].owed[0].Marker? && |s.ws[w].owed| == 1 && s.ws[w].owed[0].Marker?
    ensures s.ws[v].owed == s.ws[w].owed
  {
    OwedCopy(s, v);
    OwedCopy(s, w);
    CommonNext(Marks(s.ws[v].out), Marks(s.ws[w].out), Emitted(s.out), s.ws[v].owed[0].m, s.ws[w].owed[0].m);
  }

  lemma OwedCopy<D, M>(s: State<D, M>, w: nat)
    requires s.took <= |s.fan| && w < |s.ws| && Conserved(s, w) && Round(s, w)
    requires |s.ws[w].owed| == 1 && s.ws[w].owed[0].Marker?
    ensures Emitted(s.out) + [s.ws[w].owed[0].m] <= Marks(s.ws[w].out)
  {
    OwedMarks(s, w);
  }

  lemma TakeKeeps<D, M>(s: State<D, M>, l: Label<D, M>)
    requires Inv(s) && l.Take? && Merge(s, l).Some?
    ensures Inv(Merge(s, l).value)
  {
    var s' := Merge(s, l).value;
    TakenOwesNothing(s);
    TakeWorkers(s, l);
    TakeLoop(s, l);
    SameOuts(s, s');
  }

  lemma TakeWorkers<D, M>(s: State<D, M>, l: Label<D, M>)
    requires l.Take? && Merge(s, l).Some? && forall w :: 0 <= w < |s.ws| ==> Conserved(s, w) && Round(s, w)
    ensures forall w :: 0 <= w < |s.ws| ==> Conserved(Merge(s, l).value, w) && Round(Merge(s, l).value, w)
  {
    forall w | 0 <= w < |s.ws| ensures Conserved(Merge(s, l).value, w) && Round(Merge(s, l).value, w) {
      TakeConserved(s, l, w);
      TakeRound(s, l, w);
    }
  }

  /** The workers' markers stay in step while none of them produces anything. */
  lemma SameOuts<D, M>(s: State<D, M>, s': State<D, M>)
    requires SameMarkers(s.ws) && |s'.ws| == |s.ws|
    requires forall w :: 0 <= w < |s.ws| ==> s'.ws[w].out == s.ws[w].out && s'.ws[w].closed == s.ws[w].closed
    ensures SameMarkers(s'.ws)
  {
  }

  lemma TakeLoop<D, M>(s: State<D, M>, l: Label<D, M>)
    requires LoopOk(s) && SameMarkers(s.ws) && l.Take? && Merge(s, l).Some?
    requires s.ws[s.fan[s.took].w].owed == []
    requires forall w :: 0 <= w < |s.ws| ==> Conserved(Merge(s, l).value, w) && Round(Merge(s, l).value, w)
    ensures LoopOk(Merge(s, l).value)
  {
    if s.fan[s.took].x.Data? {
      TakeData(s, l);
    } else {
      TakeMarker(s, l);
    }
  }

  lemma TakeData<D, M>(s: State<D, M>, l: Label<D, M>)
    requires LoopOk(s) && l.Take? && Merge(s, l).Some? && s.fan[s.took].x.Data? && s.ws[s.fan[s.took].w].owed == []
    ensures LoopOk(Merge(s, l).value)
  {
    assert Owing(Merge(s, l).value.ws) == Owing(s.ws);
  }

  lemma TakeMarker<D, M>(s: State<D, M>, l: Label<D, M>)
    requires LoopOk(s) && SameMarkers(s.ws) && l.Take? && Merge(s, l).Some?
    requires s.fan[s.took].x.Marker? && s.ws[s.fan[s.took].w].owed == []
    requires forall w :: 0 <= w < |s.ws| ==> Conserved(Merge(s, l).value, w) && Round(Merge(s, l).value, w)
    ensures LoopOk(Merge(s, l).value)
  {
    if s.arrived + 1 < |s.ws| {
      TakeCounts(s, l);
    } else {
      TakeLast(s, l);
    }
  }

  lemma TakeCounts<D, M>(s: State<D, M>, l: Label<D, M>)
    requires LoopOk(s) && l.Take? && Merge(s, l).Some? && s.arrived + 1 < |s.ws|
    requires s.fan[s.took].x.Marker? && s.ws[s.fan[s.took].w].owed == []
    ensures LoopOk(Merge(s, l).value)
  {
    TakeOwing(s, l);
  }

  lemma TakeLast<D, M>(s: State<D, M>, l: Label<D, M>)
    requires LoopOk(s) && SameMarkers(s.ws) && l.Take? && Merge(s, l).Some? && s.arrived + 1 >= |s.ws|
    requires s.fan[s.took].x.Marker? && s.ws[s.fan[s.took].w].owed == []
    requires forall w :: 0 <= w < |s.ws| ==> Conserved(Merge(s, l).value, w) && Round(Merge(s, l).value, w)
    ensures LoopOk(Merge(s, l).value)
  {
    TakeFull(s, l);
    TakeSame(s, l);
    AllCopies(Merge(s, l).value, s.fan[s.took].w);
    TakeAll(s, l);
  }

  /** The last copy of a round has been counted. */
  lemma TakeFull<D, M>(s: State<D, M>, l: Label<D, M>)
    requires LoopOk(s) && l.Take? && Merge(s, l).Some? && s.arrived + 1 >= |s.ws|
    requires s.fan[s.took].x.Marker? && s.ws[s.fan[s.took].w].owed == []
    ensures |Owing(Merge(s, l).value.ws)| >= |s.ws|
  {
    TakeOwing(s, l);
  }

  lemma TakeSame<D, M>(s: State<D, M>, l: Label<D, M>)
    requires SameMarkers(s.ws) && l.Take? && Merge(s, l).Some?
    ensures |Merge(s, l).value.ws| == |s.ws| && SameMarkers(Merge(s, l).value.ws)
  {
    SameOuts(s, Merge(s, l).value);
  }

  lemma TakeAll<D, M>(s: State<D, M>, l: Label<D, M>)
    requires l.Take? && Merge(s, l).Some? && s.arrived + 1 >= |s.ws|
    requires s.fan[s.took].x.Marker? && s.ws[s.fan[s.took].w].owed == []
    requires forall w :: 0 <= w < |s.ws| ==> Merge(s, l).value.ws[w].owed == Merge(s, l).value.ws[s.fan[s.took].w].owed
    ensures LoopOk(Merge(s, l).value)
  {
  }

  lemma TakeOwing<D, M>(s: State<D, M>, l: Label<D, M>)
    requires l.Take? && Merge(s, l).Some? && s.fan[s.took].x.Marker? && s.ws[s.fan[s.took].w].owed == []
    ensures var v := s.fan[s.took].w;
            Owing(Merge(s, l).value.ws) == Owing(s.ws) + {v} && v !in Owing(s.ws)
  {
  }

  /** Once every worker's copy has been counted, they are all copies of one marker. */
  lemma AllCopies<D, M>(s: State<D, M>, v: nat)
    requires s.took <= |s.fan| && SameMarkers(s.ws) && |Owing(s.ws)| >= |s.ws| && v < |s.ws|
    requires forall w :: 0 <= w < |s.ws| ==> Conserved(s, w) && Round(s, w)
    ensures forall w :: 0 <= w < |s.ws| ==> s.ws[w].owed == s.ws[v].owed
  {
    forall w: nat | w < |s.ws| ensures s.ws[w].owed == s.ws[v].owed {
      AllOwing(Owing(s.ws), |s.ws|, w);
      AllOwing(Owing(s.ws), |s.ws|, v);
      assert Conserved(s, w) && Round(s, w) && Conserved(s, v) && Round(s, v);
      SameCopy(s, v, w);
    }
  }

  lemma AllOwing(a: set<nat>, n: nat, w: nat)
    requires (forall i :: i in a ==> i < n) && |a| >= n && w < n
    ensures w in a
  {
    if w !in a {
      MissingSize(a, n, w);
    }
  }

  lemma SendDataWorker<D, M>(s: State<D, M>, l: Label<D, M>, w: nat)
    requires l.Send? && Merge(s, l).Some? && s.loop.x.Data? && s.ws[s.loop.v].owed == [s.loop.x]
    requires w < |s.ws| && s.took <= |s.fan| && Conserved(s, w) && Round(s, w)
    ensures Conserved(Merge(s, l).value, w) && Round(Merge(s, l).value, w)
  {
    ViewAppend(s.out, Tagged(s.loop.v, s.loop.x), w);
  }

  lemma SendMarkerWorker<D, M>(s: State<D, M>, l: Label<D, M>, w: nat)
    requires l.Send? && Merge(s, l).Some? && s.loop.x.Marker?
    requires w < |s.ws| && s.ws[w].owed == [s.loop.x] && s.took <= |s.fan| && Conserved(s, w) && Round(s, w)
    ensures Conserved(Merge(s, l).value, w) && Round(Merge(s, l).value, w)
  {
    OwedIsLast(s, w);
    ViewAppend(s.out, Tagged(s.loop.v, s.loop.x), w);
    assert View(s.out, w) + [s.loop.x] + [] == View(s.out, w) + [s.loop.x];
  }

  lemma SendKeeps<D, M>(s: State<D, M>, l: Label<D, M>)
    requires Inv(s) && l.Send? && Merge(s, l).Some?
    ensures Inv(Merge(s, l).value)
  {
    SendWorkers(s, l);
    SendLoop(s, l);
    SameOuts(s, Merge(s, l).value);
  }

  lemma SendWorkers<D, M>(s: State<D, M>, l: Label<D, M>)
    requires s.took <= |s.fan| && (forall w :: 0 <= w < |s.ws| ==> Conserved(s, w) && Round(s, w)) && LoopOk(s)
    requires l.Send? && Merge(s, l).Some?
    ensures forall w :: 0 <= w < |s.ws| ==> Conserved(Merge(s, l).value, w) && Round(Merge(s, l).value, w)
  {
    forall w | 0 <= w < |s.ws| ensures Conserved(Merge(s, l).value, w) && Round(Merge(s, l).value, w) {
      assert Conserved(s, w) && Round(s, w);
      if s.loop.x.Data? {
        SendDataWorker(s, l, w);
      } else {
        SendMarkerWorker(s, l, w);
      }
    }
  }

  lemma SendLoop<D, M>(s: State<D, M>, l: Label<D, M>)
    requires LoopOk(s) && l.Send? && Merge(s, l).Some?
    ensures LoopOk(Merge(s, l).value)
  {
    if s.loop.x.Data? {
      assert Owing(Merge(s, l).value.ws) == Owing(s.ws);
    }
  }

  lemma ResumeKeeps<D, M>(s: State<D, M>, l: Label<D, M>)
    requires Inv(s) && l.Resume? && Merge(s, l).Some?
    ensures Inv(Merge(s, l).value)
  {
    var s' := Merge(s, l).value;
    forall w | 0 <= w < |s.ws| ensures Conserved(s', w) && Round(s', w) {
      assert Conserved(s, w) && Round(s, w);
      ResumeWorker(s, l, w);
    }
    ResumeLoop(s, l);
    SameOuts(s, s');
  }

  lemma ResumeLoop<D, M>(s: State<D, M>, l: Label<D, M>)
    requires LoopOk(s) && l.Resume? && Merge(s, l).Some?
    ensures LoopOk(Merge(s, l).value)
  {
    assert Owing(Merge(s, l).value.ws) == {};
  }

  lemma ResumeWorker<D, M>(s: State<D, M>, l: Label<D, M>, w: nat)
    requires l.Resume? && Merge(s, l).Some? && w < |s.ws| && s.took <= |s.fan| && Conserved(s, w) && Round(s, w)
    ensures Conserved(Merge(s, l).value, w) && Round(Merge(s, l).value, w)
  {
  }

  lemma StepKeeps<D, M>(cap: nat, s: State<D, M>, l: Label<D, M>)
    requires Inv(s) && Step(cap, s, l).Some?
    ensures Inv(Step(cap, s, l).value)
  {
    match l
    case Emit(_, _) => FeedKeeps(s, l);
    case Close(_) => FeedKeeps(s, l);
    case Put(_) => PutKeeps(cap, s, l);
    case Take => TakeKeeps(s, l);
    case Send => SendKeeps(s, l);
    case Resume => ResumeKeeps(s, l);
    case _ => ReadKeeps(cap, s, l);
  }

  lemma {:induction false} ExecKeeps<D, M>(cap: nat, s: State<D, M>, ls: seq<Label<D, M>>)
    requires Initial(s) && Exec(cap, s, ls).Some?
    ensures Inv(Exec(cap, s, ls).value)
  {
    if ls == [] {
      InitialInv(s);
    } else {
      ExecKeeps(cap, s, ls[..|ls| - 1]);
      StepKeeps(cap, Exec(cap, s, ls[..|ls| - 1]).value, ls[|ls| - 1]);
    }
  }

  // ---- Safety ---------------------------------------------------------------------------------------

  /** What every worker recognises in the output is a prefix of what it produced. */
  ghost predicate Safe<D, M>(s: State<D, M>) {
    forall w: nat :: w < |s.ws| ==> View(s.out, w) <= s.ws[w].out
  }

  lemma InvSafe<D, M>(s: State<D, M>)
    requires Inv(s)
    ensures Safe(s)
  {
    forall w: nat | w < |s.ws| ensures View(s.out, w) <= s.ws[w].out {
      assert Conserved(s, w);
      ProjPrefix(s.fan, s.took, w);
    }
  }

  /**
    In every state of every interleaving each worker's data comes out once and in order, and
    each marker comes out once, exactly where every worker placed it.
   */
  lemma MergeSafety<D, M>(cap: nat, s: State<D, M>, ls: seq<Label<D, M>>)
    requires Initial(s) && Exec(cap, s, ls).Some?
    ensures Safe(Exec(cap, s, ls).value)
  {
    ExecKeeps(cap, s, ls);
    InvSafe(Exec(cap, s, ls).value);
  }

  lemma {:induction false} ViewPrefix<D, M>(q: seq<Tagged<D, M>>, k: nat, w: nat)
    requires k <= |q|
    ensures View(q[..k], w) <= View(q, w)
    decreases |q|
  {
    if k < |q| {
      ViewPrefix(q[..|q| - 1], k, w);
      assert q[..|q| - 1][..k] == q[..k];
    } else {
      assert q[..k] == q;
    }
  }

  /**
    A marker at place `i` of the output stands, on every worker, behind exactly the items that
    are ahead of it in the output, and is that worker's own copy.
   */
  lemma MarkerAligned<D, M>(s: State<D, M>, i: nat, w: nat)
    requires Safe(s) && i < |s.out| && s.out[i].x.Marker? && w < |s.ws|
    ensures var j := |View(s.out[..i], w)|;
            && j < |s.ws[w].out| && s.ws[w].out[..j] == View(s.out[..i], w) && s.ws[w].out[j] == s.out[i].x
            && View(s.out[..i + 1], w) == s.ws[w].out[..j + 1]
  {
    ViewPrefix(s.out, i + 1, w);
    assert s.out[..i + 1] == s.out[..i] + [s.out[i]];
    ViewAppend(s.out[..i], s.out[i], w);
    var v := View(s.out[..i + 1], w);
    assert v == View(s.out[..i], w) + [s.out[i].x];
    assert v <= s.ws[w].out;
  }

  // ---- Progress ----------------------------------------------------------------------------------------

  /** A resume send never finds its one-slot channel full. */
  lemma ResumeSlotFree<D, M>(s: State<D, M>)
    requires Inv(s) && s.loop.Resuming?
    ensures s.loop.i < |s.ws| && !s.ws[s.loop.i].token && Merge(s, Resume).Some?
  {
    assert Round(s, s.loop.i);
  }

  /** Some goroutine of the merge can take a step. */
  ghost predicate CanMove<D(!new), M(!new)>(cap: nat, s: State<D, M>) {
    exists l: Label<D, M> :: !l.Emit? && !l.Close? && Step(cap, s, l).Some?
  }

  /** The merge waits for worker `w` to produce its next item or to close. */
  ghost predicate AwaitsWorker<D, M>(s: State<D, M>, w: nat) {
    w < |s.ws| && s.ws[w].fwd.Reading? && s.ws[w].pos == |s.ws[w].out| && !s.ws[w].closed
  }

  /** Everything the workers produced has been emitted and all of them have closed. */
  ghost predicate Drained<D, M>(s: State<D, M>) {
    forall w: nat :: w < |s.ws| ==> s.ws[w].closed && View(s.out, w) == s.ws[w].out
  }

  /** The merge never deadlocks. */
  lemma Progress<D(!new), M(!new)>(cap: nat, s: State<D, M>)
    requires Inv(s) && cap >= 1
    ensures CanMove(cap, s) || Drained(s) || exists w :: AwaitsWorker(s, w)
  {
    if s.loop.Sending? {
      assert Step(cap, s, Send).Some?;
    } else if s.loop.Resuming? {
      ResumeSlotFree(s);
      assert Step(cap, s, Resume).Some?;
    } else if s.took < |s.fan| {
      assert Step(cap, s, Take).Some?;
    } else {
      LoopIdle(cap, s);
    }
  }

  /** With nothing for the loop to do, some forwarder moves unless it waits for its worker. */
  lemma LoopIdle<D(!new), M(!new)>(cap: nat, s: State<D, M>)
    requires Inv(s) && cap >= 1 && s.loop.Receiving? && s.took == |s.fan|
    ensures CanMove(cap, s) || Drained(s) || exists w :: AwaitsWorker(s, w)
  {
    if forall w: nat :: w < |s.ws| ==> s.ws[w].fwd.Finished? {
      FinishedDrained(s);
    } else {
      var w: nat :| w < |s.ws| && !s.ws[w].fwd.Finished?;
      var v := w;
      if s.ws[w].fwd.Parked? && !s.ws[w].token {
        v := Laggard(s, w);
      }
      ForwarderMoves(cap, s, v);
    }
  }

  lemma ForwarderMoves<D(!new), M(!new)>(cap: nat, s: State<D, M>, w: nat)
    requires Inv(s) && cap >= 1 && s.loop.Receiving? && s.took == |s.fan| && w < |s.ws|
    requires !s.ws[w].fwd.Finished? && (s.ws[w].fwd.Parked? ==> s.ws[w].token)
    ensures CanMove(cap, s) || AwaitsWorker(s, w)
  {
    assert Conserved(s, w);
    var k := s.ws[w];
    if k.fwd.Holding? {
      assert Step(cap, s, Put(w)).Some?;
    } else if k.fwd.Parked? {
      assert Step(cap, s, Unpark(w)).Some?;
    } else if k.pos < |k.out| {
      assert Step(cap, s, Read(w)).Some?;
    } else if k.closed {
      assert Step(cap, s, Finish(w)).Some?;
    }
  }

  lemma FinishedDrained<D, M>(s: State<D, M>)
    requires Inv(s) && s.loop.Receiving? && s.took == |s.fan|
    requires forall w: nat :: w < |s.ws| ==> s.ws[w].fwd.Finished?
    ensures Drained(s)
  {
    forall w: nat | w < |s.ws| ensures s.ws[w].closed && View(s.out, w) == s.ws[w].out {
      assert Conserved(s, w) && Round(s, w);
      NothingOwed(s, w);
      assert s.fan[..s.took] == s.fan;
      assert s.ws[w].out[..s.ws[w].pos] == s.ws[w].out;
    }
  }

  lemma NothingOwed<D, M>(s: State<D, M>, w: nat)
    requires Inv(s) && s.loop.Receiving? && w < |s.ws| && !Ahead(s, w)
    ensures s.ws[w].owed == []
  {
    assert Conserved(s, w) && Round(s, w);
    if s.ws[w].owed != [] {
      OwedIsLast(s, w);
    }
  }

  /** When one forwarder is parked for a round that is not complete, another worker's copy is still on its way. */
  lemma Laggard<D, M>(s: State<D, M>, w: nat) returns (v: nat)
    requires Inv(s) && s.loop.Receiving? && s.took == |s.fan| && w < |s.ws| && s.ws[w].fwd.Parked? && !s.ws[w].token
    ensures v < |s.ws| && !s.ws[v].fwd.Finished? && (s.ws[v].fwd.Parked? ==> s.ws[v].token)
  {
    if forall u: nat :: u < |s.ws| ==> u in Owing(s.ws) {
      AllSize(Owing(s.ws), |s.ws|);
      assert false;
    }
    v :| v < |s.ws| && v !in Owing(s.ws);
    assert Conserved(s, v) && Round(s, v) && Conserved(s, w) && Round(s, w);
    assert s.fan[..s.took] == s.fan;
    OwedMarks(s, v);
    assert !Ahead(s, v);
    if s.ws[v].fwd.Finished? {
      FinishedBehind(s, v, w);
    }
  }

  lemma FinishedBehind<D, M>(s: State<D, M>, v: nat, w: nat)
    requires Inv(s) && v < |s.ws| && w < |s.ws| && s.ws[v].fwd.Finished? && !Ahead(s, v)
    ensures !Ahead(s, w)
  {
    assert Conserved(s, v) && Round(s, v) && Conserved(s, w) && Round(s, w);
    OwedMarks(s, w);
    assert s.ws[v].out[..s.ws[v].pos] == s.ws[v].out;
    assert Proj(s.fan, v) == s.ws[v].out;
    assert Marks(s.ws[w].out) <= Marks(s.ws[v].out);
  }

  lemma {:induction false} AllSize(a: set<nat>, n: nat)
    requires forall i: nat :: i < n ==> i in a
    ensures |a| >= n
  {
    if n > 0 {
      AllSize(a - {n - 1}, n - 1);
    }
  }

  // ---- Every step uses up work ---------------------------------------------------------------------------

  function Weight<D, M>(k: Worker<D, M>): nat {
    (if k.pos < |k.out| then 6 * (|k.out| - k.pos) else 0)
    + (if k.fwd.Holding? then 5 else 0) + (if k.token then 1 else 0) + (if k.fwd.Finished? then 0 else 1)
  }

  function Total<D, M>(ws: seq<Worker<D, M>>): nat {
    if ws == [] then 0 else Total(ws[..|ws| - 1]) + Weight(ws[|ws| - 1])
  }

  /** The undelivered records and markers, weighted by how far each still has to go. */
  function Measure<D, M>(s: State<D, M>): nat
    requires s.took <= |s.fan|
  {
    Total(s.ws) + 4 * (|s.fan| - s.took) + 3 * s.arrived
    + match s.loop
      case Receiving => 0
      case Sending(_, x) => if x.Data? then 3 else 3 * |s.ws|
      case Resuming(i) => if i < |s.ws| then 2 * (|s.ws| - i) else 0
  }

  lemma {:induction false} TotalUpdate<D, M>(ws: seq<Worker<D, M>>, i: nat, k: Worker<D, M>)
    requires i < |ws|
    ensures Total(ws[i := k]) == Total(ws) - Weight(ws[i]) + Weight(k)
  {
    var n := |ws| - 1;
    if i == n {
      assert ws[i := k][..n] == ws[..n];
    } else {
      TotalUpdate(ws[..n], i, k);
      assert ws[i := k][..n] == ws[..n][i := k];
    }
  }

  lemma {:induction false} TotalSettled<D, M>(ws: seq<Worker<D, M>>)
    ensures Total(Settled(ws)) == Total(ws)
  {
    if ws != [] {
      TotalSettled(ws[..|ws| - 1]);
      assert Settled(ws)[..|ws| - 1] == Settled(ws[..|ws| - 1]);
    }
  }

  lemma TakeDecreases<D, M>(s: State<D, M>)
    requires s.took <= |s.fan| && s.arrived < |s.ws| && Merge(s, Take).Some?
    ensures Measure(Merge(s, Take).value) < Measure(s)
  {
    var v := s.fan[s.took].w;
    TotalUpdate(s.ws, v, s.ws[v].(owed := s.ws[v].owed + [s.fan[s.took].x]));
  }

  lemma SendDecreases<D, M>(s: State<D, M>)
    requires s.took <= |s.fan| && Merge(s, Send).Some?
    ensures Measure(Merge(s, Send).value) < Measure(s)
  {
    if s.loop.x.Data? {
      TotalUpdate(s.ws, s.loop.v, s.ws[s.loop.v].(owed := []));
    } else {
      TotalSettled(s.ws);
    }
  }

  lemma ResumeDecreases<D, M>(s: State<D, M>)
    requires s.took <= |s.fan| && Merge(s, Resume).Some?
    ensures Measure(Merge(s, Resume).value) < Measure(s)
  {
    TotalUpdate(s.ws, s.loop.i, s.ws[s.loop.i].(token := true));
  }

  lemma ForwardDecreases<D, M>(cap: nat, s: State<D, M>, l: Label<D, M>)
    requires s.took <= |s.fan| && (l.Read? || l.Finish? || l.Put? || l.Unpark?) && Forward(cap, s, l).Some?
    ensures Measure(Forward(cap, s, l).value) < Measure(s)
  {
    var s' := Forward(cap, s, l).value;
    TotalUpdate(s.ws, l.w, s'.ws[l.w]);
    assert s'.ws == s.ws[l.w := s'.ws[l.w]];
  }

  /** Every step of the merge's own goroutines decreases the measure, so between two items from the workers it comes to rest. */
  lemma StepDecreases<D, M>(cap: nat, s: State<D, M>, l: Label<D, M>)
    requires Inv(s) && Step(cap, s, l).Some? && !l.Emit? && !l.Close?
    ensures Step(cap, s, l).value.took <= |Step(cap, s, l).value.fan| && Measure(Step(cap, s, l).value) < Measure(s)
  {
    match l
    case Take => TakeDecreases(s);
    case Send => SendDecreases(s);
    case Resume => ResumeDecreases(s);
    case _ => ForwardDecreases(cap, s, l);
  }
}
