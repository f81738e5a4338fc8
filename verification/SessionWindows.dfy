/** Session windows fire as clusters of timestamps. */
module SessionWindows {
  import opened Prelude
  import opened WindowAssign
  import opened Windows

  // ---- The reference: clusters of timestamps ---------------------------------------------

  /** `path` leads from `a` to `b` over records of their key, each within the gap of the one before. */
  ghost predicate Path(gap: int, rs: seq<Rec>, a: Rec, b: Rec, path: seq<Rec>) {
    && path != [] && path[0] == a && path[|path| - 1] == b
    && (forall i :: 0 <= i < |path| ==> path[i] in rs && path[i].key == a.key)
    && (forall i :: 0 < i < |path| ==> Near(gap, path[i - 1], path[i]))
  }

  predicate Near(gap: int, a: Rec, b: Rec) { a.ts - b.ts < gap && b.ts - a.ts < gap }

  ghost predicate Connected(gap: int, rs: seq<Rec>, a: Rec, b: Rec) {
    exists path :: Path(gap, rs, a, b, path)
  }

  /** `f` spans exactly from its first record to the gap after its last, without a hole. */
  ghost predicate Cluster(gap: int, k: Slot, recs: seq<Rec>) {
    && (forall r :: r in recs ==> r.key == k.key && k.win.start <= r.ts <= k.win.end - gap)
    && (exists r :: r in recs && r.ts == k.win.start)
    && (exists r :: r in recs && r.ts == k.win.end - gap)
    && (forall r :: r in recs ==> Followed(gap, k, recs, r))
  }

  ghost predicate Followed(gap: int, k: Slot, recs: seq<Rec>, r: Rec) {
    r.ts == k.win.end - gap || exists q :: q in recs && r.ts < q.ts < r.ts + gap
  }

  predicate Disjoint(a: Win, b: Win) { a.end <= b.start || b.end <= a.start }

  ghost predicate Together(fired: seq<Fired>, a: Rec, b: Rec) {
    exists i :: 0 <= i < |fired| && a in fired[i].recs && b in fired[i].recs
  }

  /** The fired sessions are the connected components of the stored records `rs`, each record in one of them, once. */
  ghost predicate Components(gap: int, rs: seq<Rec>, fired: seq<Fired>) {
    && Partition(gap, rs, fired)
    && (forall a, b :: a in rs && b in rs && a.key == b.key ==> (Together(fired, a, b) <==> Connected(gap, rs, a, b)))
  }

  /** Every session is a cluster of the stored records `rs`, and every one of these is in one session, once. */
  ghost predicate Partition(gap: int, rs: seq<Rec>, fired: seq<Fired>) {
    && (forall i :: 0 <= i < |fired| ==>
          Cluster(gap, fired[i].slot, fired[i].recs) && NoDup(fired[i].recs) && forall r :: r in fired[i].recs ==> r in rs)
    && (forall i, j, r :: 0 <= i < j < |fired| && r in fired[i].recs ==> r !in fired[j].recs)
    && (forall a :: a in rs ==> Together(fired, a, a))
  }

  // ---- The invariant ---------------------------------------------------------------------------

  /** Open windows are clusters, apart from one another. */
  ghost predicate Apart(gap: int, open: map<Slot, seq<Rec>>) {
    && (forall k :: k in open ==> Cluster(gap, k, open[k]) && NoDup(open[k]))
    && (forall k, l :: k in open && l in open && k != l && k.key == l.key ==> Disjoint(k.win, l.win))
  }

  ghost predicate OpenOk(gap: int, s: State) { Apart(gap, s.open) }

  ghost predicate FiredOk(gap: int, s: State) {
    && (forall i :: 0 <= i < |s.fired| ==> Cluster(gap, s.fired[i].slot, s.fired[i].recs) && NoDup(s.fired[i].recs))
    && (forall i, j :: 0 <= i < j < |s.fired| && s.fired[i].slot.key == s.fired[j].slot.key ==>
          Disjoint(s.fired[i].slot.win, s.fired[j].slot.win))
    && (forall i, k :: 0 <= i < |s.fired| && k in s.open && k.key == s.fired[i].slot.key ==>
          Disjoint(s.fired[i].slot.win, k.win))
  }

  ghost predicate Held(s: State, r: Rec) {
    (exists k :: k in s.open && r in s.open[k]) || (exists i :: 0 <= i < |s.fired| && r in s.fired[i].recs)
  }

  /** `rs` are the records in windows that are open or have fired. */
  ghost predicate Holds(s: State, rs: seq<Rec>) { forall r :: r in rs <==> Held(s, r) }

  /** The windows hold the stored copies of the accepted records, which are numbered and of the given times. */
  ghost predicate AllHeld(times: iset<int>, s: State) {
    && Holds(s, KeptAll(s.accepted))
    && (forall i :: 0 <= i < |s.accepted| ==> s.accepted[i].n == i && s.accepted[i].ts in times)
  }

  ghost predicate Inv(gap: int, times: iset<int>, lateness: nat, s: State) {
    && OpenOk(gap, s) && FiredOk(gap, s) && AllHeld(times, s)
    && s.wm >= ZERO_TIME && (s.wm == ZERO_TIME ==> s.fired == [])
    && (forall i :: 0 <= i < |s.fired| ==> s.fired[i].slot.win.end + lateness <= s.wm)
  }

  // ---- Joining sessions ------------------------------------------------------------------------

  lemma {:induction false} HullBounds(order: seq<Slot>, w: Win)
    ensures var h := Hull(order, w);
            && h.start <= w.start && w.end <= h.end
            && (forall i :: 0 <= i < |order| ==> h.start <= order[i].win.start && order[i].win.end <= h.end)
            && (h.start == w.start || exists i :: 0 <= i < |order| && h.start == order[i].win.start)
            && (h.end == w.end || exists i :: 0 <= i < |order| && h.end == order[i].win.end)
  {
    if order != [] {
      var o := order[..|order| - 1];
      HullBounds(o, w);
      var h, g, e := Hull(order, w), Hull(o, w), order[|order| - 1].win;
      assert order[|order| - 1].win == e;
      if h.start == g.start != w.start && e.start >= g.start {
        var i :| 0 <= i < |o| && g.start == o[i].win.start;
        assert order[i].win.start == h.start;
      }
      if h.end == g.end != w.end && e.end <= g.end {
        var i :| 0 <= i < |o| && g.end == o[i].win.end;
        assert order[i].win.end == h.end;
      }
    }
  }

  lemma {:induction false} Gathered(open: map<Slot, seq<Rec>>, order: seq<Slot>, r: Rec)
    requires forall i :: 0 <= i < |order| ==> order[i] in open
    ensures r in Gather(open, order) <==> exists i :: 0 <= i < |order| && r in open[order[i]]
  {
    if order != [] {
      var o := order[..|order| - 1];
      Gathered(open, o, r);
      assert forall i :: 0 <= i < |o| ==> o[i] == order[i];
      if r in Gather(open, o) {
        var i :| 0 <= i < |o| && r in open[o[i]];
        assert r in open[order[i]];
      }
    }
  }

  lemma {:induction false} LatestAtMost(recs: seq<Rec>, t: int) returns (x: Rec)
    requires exists r :: r in recs && r.ts <= t
    ensures x in recs && x.ts <= t && forall q :: q in recs && q.ts <= t ==> q.ts <= x.ts
  {
    var rest, last := recs[..|recs| - 1], recs[|recs| - 1];
    assert recs == rest + [last];
    if r :| r in rest && r.ts <= t {
      x := LatestAtMost(rest, t);
      if x.ts < last.ts <= t {
        x := last;
      }
    } else {
      x := last;
    }
  }

  /** A cluster has a record less than the gap after any time inside it. */
  lemma NextAfter(gap: int, k: Slot, recs: seq<Rec>, t: int) returns (q: Rec)
    requires Cluster(gap, k, recs) && k.win.start <= t < k.win.end - gap
    ensures q in recs && t < q.ts < t + gap
  {
    var x := LatestAtMost(recs, t);
    assert Followed(gap, k, recs, x);
    q :| q in recs && x.ts < q.ts < x.ts + gap;
  }

  /** What a record joins: the sessions in `order`, all of its key, each overlapping its window. */
  ghost predicate Joins(gap: int, open: map<Slot, seq<Rec>>, r: Rec, order: seq<Slot>) {
    gap > 0 && Lists(order, Touching(open, r.key, Win(r.ts, r.ts + gap))) && Apart(gap, open)
  }

  function Joined(gap: int, r: Rec, order: seq<Slot>): Slot {
    Slot(r.key, Hull(order, Win(r.ts, r.ts + gap)))
  }

  /** The bounds alone of what a record joins. */
  ghost predicate Parts(gap: int, r: Rec, order: seq<Slot>) {
    && gap > 0
    && (forall i :: 0 <= i < |order| ==> Touches(gap, r, order[i]))
    && (forall i, j :: 0 <= i < j < |order| ==> Disjoint(order[i].win, order[j].win))
  }

  predicate Touches(gap: int, r: Rec, a: Slot) {
    a.key == r.key && a.win.start < r.ts + gap && r.ts < a.win.end && a.win.start + gap <= a.win.end
  }

  lemma ClusterSpan(gap: int, k: Slot, recs: seq<Rec>)
    requires Cluster(gap, k, recs)
    ensures k.win.start + gap <= k.win.end
  {
    var q :| q in recs && q.ts == k.win.start;
  }

  lemma PartsOf(gap: int, open: map<Slot, seq<Rec>>, r: Rec, order: seq<Slot>)
    requires Joins(gap, open, r, order)
    ensures Parts(gap, r, order) && forall i :: 0 <= i < |order| ==> order[i] in open
  {
    forall i | 0 <= i < |order| ensures order[i] in open && Touches(gap, r, order[i]) {
      assert order[i] in Touching(open, r.key, Win(r.ts, r.ts + gap));
      ClusterSpan(gap, order[i], open[order[i]]);
    }
  }

  lemma JoinedIn(open: map<Slot, seq<Rec>>, r: Rec, order: seq<Slot>, q: Rec)
    requires forall i :: 0 <= i < |order| ==> order[i] in open
    ensures q in Gather(open, order) + [r] <==> q == r || exists i :: 0 <= i < |order| && q in open[order[i]]
  {
    Gathered(open, order, q);
  }

  lemma JoinedSpan(gap: int, open: map<Slot, seq<Rec>>, r: Rec, order: seq<Slot>)
    requires Parts(gap, r, order) && forall i :: 0 <= i < |order| ==> order[i] in open && Cluster(gap, order[i], open[order[i]])
    ensures var k, recs := Joined(gap, r, order), Gather(open, order) + [r];
            && (forall q :: q in recs ==> q.key == k.key && k.win.start <= q.ts <= k.win.end - gap)
            && (exists q :: q in recs && q.ts == k.win.start)
            && (exists q :: q in recs && q.ts == k.win.end - gap)
  {
    var k, recs := Joined(gap, r, order), Gather(open, order) + [r];
    forall q | q in recs ensures q.key == k.key && k.win.start <= q.ts <= k.win.end - gap {
      JoinedWithin(gap, open, r, order, q);
    }
    JoinedEnds(gap, open, r, order);
  }

  lemma JoinedWithin(gap: int, open: map<Slot, seq<Rec>>, r: Rec, order: seq<Slot>, q: Rec)
    requires Parts(gap, r, order) && forall i :: 0 <= i < |order| ==> order[i] in open && Cluster(gap, order[i], open[order[i]])
    requires q in Gather(open, order) + [r]
    ensures var k := Joined(gap, r, order); q.key == k.key && k.win.start <= q.ts <= k.win.end - gap
  {
    JoinedIn(open, r, order, q);
    if q == r {
      HullOwn(order, Win(r.ts, r.ts + gap));
    } else {
      var i :| 0 <= i < |order| && q in open[order[i]];
      assert Touches(gap, r, order[i]);
      JoinedPart(gap, r, order, i, open[order[i]], q);
    }
  }

  lemma {:induction false} HullOwn(order: seq<Slot>, w: Win)
    ensures Hull(order, w).start <= w.start && w.end <= Hull(order, w).end
  {
    if order != [] {
      HullOwn(order[..|order| - 1], w);
    }
  }

  lemma JoinedPart(gap: int, r: Rec, order: seq<Slot>, i: nat, recs: seq<Rec>, q: Rec)
    requires i < |order| && order[i].key == r.key && Cluster(gap, order[i], recs) && q in recs
    ensures var k := Joined(gap, r, order); q.key == k.key && k.win.start <= q.ts <= k.win.end - gap
  {
    InCluster(gap, order[i], recs, q);
    PartWithin(gap, r, order, i, q);
  }

  lemma {:induction false} HullHas(order: seq<Slot>, w: Win, i: nat)
    requires i < |order|
    ensures Hull(order, w).start <= order[i].win.start && order[i].win.end <= Hull(order, w).end
  {
    if i < |order| - 1 {
      HullHas(order[..|order| - 1], w, i);
    }
  }

  lemma PartWithin(gap: int, r: Rec, order: seq<Slot>, i: nat, q: Rec)
    requires i < |order| && order[i].key == r.key && q.key == order[i].key && order[i].win.start <= q.ts <= order[i].win.end - gap
    ensures var k := Joined(gap, r, order); q.key == k.key && k.win.start <= q.ts <= k.win.end - gap
  {
    HullHas(order, Win(r.ts, r.ts + gap), i);
  }

  lemma InCluster(gap: int, k: Slot, recs: seq<Rec>, q: Rec)
    requires Cluster(gap, k, recs) && q in recs
    ensures q.key == k.key && k.win.start <= q.ts <= k.win.end - gap
  {
  }

  lemma JoinedEnds(gap: int, open: map<Slot, seq<Rec>>, r: Rec, order: seq<Slot>)
    requires forall i :: 0 <= i < |order| ==> order[i] in open && Cluster(gap, order[i], open[order[i]])
    ensures var k, recs := Joined(gap, r, order), Gather(open, order) + [r];
            && (exists q :: q in recs && q.ts == k.win.start)
            && (exists q :: q in recs && q.ts == k.win.end - gap)
  {
    var k := Joined(gap, r, order);
    assert r in Gather(open, order) + [r];
    if k.win.start != r.ts {
      var i := FirstPart(gap, r, order);
      var q := PartEnd(gap, order[i], open[order[i]], true);
      JoinedIn(open, r, order, q);
    }
    if k.win.end != r.ts + gap {
      var i := LastPart(gap, r, order);
      var q := PartEnd(gap, order[i], open[order[i]], false);
      JoinedIn(open, r, order, q);
    }
  }

  lemma FirstPart(gap: int, r: Rec, order: seq<Slot>) returns (i: nat)
    requires Joined(gap, r, order).win.start != r.ts
    ensures i < |order| && order[i].win.start == Joined(gap, r, order).win.start
  {
    HullBounds(order, Win(r.ts, r.ts + gap));
    i :| i < |order| && Joined(gap, r, order).win.start == order[i].win.start;
  }

  lemma PartEnd(gap: int, k: Slot, recs: seq<Rec>, first: bool) returns (q: Rec)
    requires Cluster(gap, k, recs)
    ensures q in recs && q.ts == if first then k.win.start else k.win.end - gap
  {
    q :| q in recs && q.ts == if first then k.win.start else k.win.end - gap;
  }

  /** When a joined session reaches beyond one of its parts, the new record lies after that part's last record. */
  lemma Bridged(gap: int, r: Rec, order: seq<Slot>, i: nat)
    requires Parts(gap, r, order) && i < |order| && order[i].win.end < Joined(gap, r, order).win.end
    ensures order[i].win.end - gap < r.ts < order[i].win.end
  {
    HullBounds(order, Win(r.ts, r.ts + gap));
    assert Touches(gap, r, order[i]);
    if Joined(gap, r, order).win.end != r.ts + gap {
      var j :| 0 <= j < |order| && Joined(gap, r, order).win.end == order[j].win.end;
      assert Touches(gap, r, order[j]);
      assert Disjoint(order[i].win, order[j].win) || Disjoint(order[j].win, order[i].win);
    }
  }

  lemma JoinedFollowed(gap: int, open: map<Slot, seq<Rec>>, r: Rec, order: seq<Slot>, q: Rec)
    requires Parts(gap, r, order) && forall i :: 0 <= i < |order| ==> order[i] in open && Cluster(gap, order[i], open[order[i]])
    requires q in Gather(open, order) + [r]
    ensures Followed(gap, Joined(gap, r, order), Gather(open, order) + [r], q)
  {
    JoinedIn(open, r, order, q);
    if q == r {
      RecordFollowed(gap, open, r, order);
    } else {
      var i :| 0 <= i < |order| && q in open[order[i]];
      PartFollowed(gap, open, r, order, q, i);
    }
  }

  lemma PartFollowed(gap: int, open: map<Slot, seq<Rec>>, r: Rec, order: seq<Slot>, q: Rec, i: nat)
    requires Parts(gap, r, order) && forall j :: 0 <= j < |order| ==> order[j] in open
    requires i < |order| && Cluster(gap, order[i], open[order[i]]) && q in open[order[i]]
    ensures Followed(gap, Joined(gap, r, order), Gather(open, order) + [r], q)
  {
    var a := order[i];
    HullBounds(order, Win(r.ts, r.ts + gap));
    assert Followed(gap, a, open[a], q);
    if q.ts != a.win.end - gap {
      var p :| p in open[a] && q.ts < p.ts < q.ts + gap;
      JoinedIn(open, r, order, p);
    } else if a.win.end < Joined(gap, r, order).win.end {
      Bridged(gap, r, order, i);
      assert r in Gather(open, order) + [r];
    }
  }

  lemma RecordFollowed(gap: int, open: map<Slot, seq<Rec>>, r: Rec, order: seq<Slot>)
    requires Parts(gap, r, order) && forall i :: 0 <= i < |order| ==> order[i] in open && Cluster(gap, order[i], open[order[i]])
    ensures Followed(gap, Joined(gap, r, order), Gather(open, order) + [r], r)
  {
    if r.ts != Joined(gap, r, order).win.end - gap {
      var i := LastPart(gap, r, order);
      assert Touches(gap, r, order[i]);
      var q := PartAfter(gap, order[i], open[order[i]], r);
      JoinedIn(open, r, order, q);
    }
  }

  lemma LastPart(gap: int, r: Rec, order: seq<Slot>) returns (i: nat)
    requires Joined(gap, r, order).win.end != r.ts + gap
    ensures i < |order| && r.ts + gap < order[i].win.end == Joined(gap, r, order).win.end
  {
    HullBounds(order, Win(r.ts, r.ts + gap));
    i :| i < |order| && Joined(gap, r, order).win.end == order[i].win.end;
  }

  lemma PartAfter(gap: int, a: Slot, recs: seq<Rec>, r: Rec) returns (q: Rec)
    requires Cluster(gap, a, recs) && Touches(gap, r, a) && r.ts + gap < a.win.end
    ensures q in recs && r.ts < q.ts < r.ts + gap
  {
    if a.win.start > r.ts {
      q :| q in recs && q.ts == a.win.start;
    } else {
      q := NextAfter(gap, a, recs, r.ts);
    }
  }

  lemma JoinedCluster(gap: int, open: map<Slot, seq<Rec>>, r: Rec, order: seq<Slot>)
    requires Joins(gap, open, r, order)
    ensures Cluster(gap, Joined(gap, r, order), Gather(open, order) + [r])
  {
    PartsOf(gap, open, r, order);
    JoinedSpan(gap, open, r, order);
    forall q | q in Gather(open, order) + [r] ensures Followed(gap, Joined(gap, r, order), Gather(open, order) + [r], q) {
      JoinedFollowed(gap, open, r, order, q);
    }
  }

  /** A window that the record does not touch, and that is apart from all it joins, stays apart. */
  lemma JoinedDisjoint(gap: int, r: Rec, order: seq<Slot>, b: Win)
    requires Parts(gap, r, order) && b.start < b.end && !b.Overlaps(Win(r.ts, r.ts + gap))
    requires forall i :: 0 <= i < |order| ==> Disjoint(order[i].win, b)
    ensures Disjoint(Joined(gap, r, order).win, b)
  {
    HullBounds(order, Win(r.ts, r.ts + gap));
    forall i | 0 <= i < |order| ensures if b.end <= r.ts then b.end <= order[i].win.start else order[i].win.end <= b.start {
      assert Touches(gap, r, order[i]);
    }
  }

  lemma NoCommon(gap: int, a: Slot, ra: seq<Rec>, b: Slot, rb: seq<Rec>, q: Rec)
    requires gap > 0 && Cluster(gap, a, ra) && Cluster(gap, b, rb) && Disjoint(a.win, b.win) && q in ra
    ensures q !in rb
  {
  }

  lemma {:induction false} GatherNoDup(gap: int, open: map<Slot, seq<Rec>>, order: seq<Slot>)
    requires gap > 0 && forall i :: 0 <= i < |order| ==> order[i] in open && Cluster(gap, order[i], open[order[i]]) && NoDup(open[order[i]])
    requires forall i, j :: 0 <= i < j < |order| ==> Disjoint(order[i].win, order[j].win)
    ensures NoDup(Gather(open, order))
  {
    if order != [] {
      var o, k := order[..|order| - 1], order[|order| - 1];
      GatherNoDup(gap, open, o);
      forall i | 0 <= i < |Gather(open, o)| ensures Gather(open, o)[i] !in open[k] {
        var q := Gather(open, o)[i];
        Gathered(open, o, q);
        var j :| 0 <= j < |o| && q in open[o[j]];
        NoCommon(gap, o[j], open[o[j]], k, open[k], q);
      }
    }
  }

  // ---- Records -------------------------------------------------------------------------------------

  /** The joined session is new. */
  lemma JoinedNew(gap: int, open: map<Slot, seq<Rec>>, r: Rec, order: seq<Slot>)
    requires Joins(gap, open, r, order)
    ensures Joined(gap, r, order) !in open - Keys(order)
  {
    var k := Joined(gap, r, order);
    HullOwn(order, Win(r.ts, r.ts + gap));
    assert k in open ==> k in Touching(open, r.key, Win(r.ts, r.ts + gap));
  }

  lemma RecordOpen(gap: int, s: State, r: Rec, order: seq<Slot>, s': State)
    requires OpenOk(gap, s) && Joins(gap, s.open, r, order) && (forall k :: k in s.open ==> r !in s.open[k])
    requires s'.open == (s.open - Keys(order))[Joined(gap, r, order) := Gather(s.open, order) + [r]]
    ensures OpenOk(gap, s')
  {
    var k := Joined(gap, r, order);
    JoinedCluster(gap, s.open, r, order);
    JoinedNoDup(gap, s.open, r, order);
    forall l | l in s'.open ensures Cluster(gap, l, s'.open[l]) && NoDup(s'.open[l]) {
      if l != k {
        assert l in s.open && s'.open[l] == s.open[l];
      }
    }
    forall l, m | l in s'.open && m in s'.open && l != m && l.key == m.key ensures Disjoint(l.win, m.win) {
      if l == k {
        JoinedApart(gap, s.open, r, order, m);
      } else if m == k {
        JoinedApart(gap, s.open, r, order, l);
      }
    }
  }

  lemma JoinedNoDup(gap: int, open: map<Slot, seq<Rec>>, r: Rec, order: seq<Slot>)
    requires Joins(gap, open, r, order) && (forall k :: k in open ==> r !in open[k])
    ensures NoDup(Gather(open, order) + [r])
  {
    PartsOf(gap, open, r, order);
    GatherNoDup(gap, open, order);
    Gathered(open, order, r);
  }

  lemma JoinedApart(gap: int, open: map<Slot, seq<Rec>>, r: Rec, order: seq<Slot>, l: Slot)
    requires Joins(gap, open, r, order) && l in open - Keys(order) && l.key == r.key
    ensures Disjoint(Joined(gap, r, order).win, l.win)
  {
    PartsOf(gap, open, r, order);
    assert l !in Touching(open, r.key, Win(r.ts, r.ts + gap));
    ClusterSpan(gap, l, open[l]);
    forall i | 0 <= i < |order| ensures Disjoint(order[i].win, l.win) {
      assert Touches(gap, r, order[i]) && order[i] in Keys(order);
    }
    JoinedDisjoint(gap, r, order, l.win);
  }

  /** No accepted record overlaps a fired session. */
  lemma RecordFired(gap: int, lateness: nat, s: State, r: Rec, order: seq<Slot>, s': State)
    requires FiredOk(gap, s) && (s.wm == ZERO_TIME ==> s.fired == [])
    requires forall i :: 0 <= i < |s.fired| ==> s.fired[i].slot.win.end + lateness <= s.wm
    requires Joins(gap, s.open, r, order) && !TooLate(lateness, s.wm, r.ts)
    requires s'.fired == s.fired && s'.open == (s.open - Keys(order))[Joined(gap, r, order) := Gather(s.open, order) + [r]]
    ensures FiredOk(gap, s')
  {
    var k := Joined(gap, r, order);
    PartsOf(gap, s.open, r, order);
    forall i | 0 <= i < |s.fired| && k.key == s.fired[i].slot.key ensures Disjoint(s.fired[i].slot.win, k.win) {
      var f := s.fired[i];
      ClusterSpan(gap, f.slot, f.recs);
      JoinedDisjoint(gap, r, order, f.slot.win);
    }
  }

  lemma RecordHeld(s: State, rs: seq<Rec>, r: Rec, order: seq<Slot>, k: Slot, s': State)
    requires Holds(s, rs) && (forall i :: 0 <= i < |order| ==> order[i] in s.open) && k !in s.open - Keys(order)
    requires s'.fired == s.fired && s'.open == (s.open - Keys(order))[k := Gather(s.open, order) + [r]]
    ensures Holds(s', rs + [r])
  {
    forall q ensures q in rs + [r] <==> Held(s', q) {
      JoinedIn(s.open, r, order, q);
      if q == r {
        assert q in s'.open[k];
      } else {
        StillHeld(s, r, order, k, s', q);
        WasHeld(s, r, order, k, s', q);
      }
    }
  }

  lemma StillHeld(s: State, r: Rec, order: seq<Slot>, k: Slot, s': State, q: Rec)
    requires (forall i :: 0 <= i < |order| ==> order[i] in s.open) && s'.fired == s.fired && k !in s.open - Keys(order)
    requires s'.open == (s.open - Keys(order))[k := Gather(s.open, order) + [r]]
    ensures Held(s, q) ==> Held(s', q)
  {
    JoinedIn(s.open, r, order, q);
    if l :| l in s.open && q in s.open[l] {
      if l in Keys(order) {
        var i :| 0 <= i < |order| && order[i] == l;
        assert q in s'.open[k];
      } else {
        assert q in s'.open[l];
      }
    }
  }

  lemma WasHeld(s: State, r: Rec, order: seq<Slot>, k: Slot, s': State, q: Rec)
    requires (forall i :: 0 <= i < |order| ==> order[i] in s.open) && s'.fired == s.fired && q != r
    requires s'.open == (s.open - Keys(order))[k := Gather(s.open, order) + [r]]
    ensures Held(s', q) ==> Held(s, q)
  {
    JoinedIn(s.open, r, order, q);
    if l :| l in s'.open && q in s'.open[l] {
      if l == k {
        var i :| 0 <= i < |order| && q in s.open[order[i]];
        assert Held(s, q);
      } else {
        assert q in s.open[l];
      }
    }
  }

  // ---- Firing ------------------------------------------------------------------------------------------

  ghost predicate Closable(s: State, order: seq<Slot>) {
    && (forall i :: 0 <= i < |order| ==> order[i] in s.open)
    && (forall i, j :: 0 <= i < j < |order| ==> order[i] != order[j])
  }

  lemma CloseFired(gap: int, s: State, order: seq<Slot>)
    requires OpenOk(gap, s) && FiredOk(gap, s) && Closable(s, order)
    ensures OpenOk(gap, Close(s, order)) && FiredOk(gap, Close(s, order))
  {
    var s' := Close(s, order);
    forall i | 0 <= i < |s'.fired| ensures Cluster(gap, s'.fired[i].slot, s'.fired[i].recs) && NoDup(s'.fired[i].recs) {
      CloseCluster(gap, s, order, i);
    }
    forall i, j | 0 <= i < j < |s'.fired| && s'.fired[i].slot.key == s'.fired[j].slot.key
      ensures Disjoint(s'.fired[i].slot.win, s'.fired[j].slot.win) {
      CloseApart(gap, s, order, i, j);
    }
    forall i, k | 0 <= i < |s'.fired| && k in s'.open && k.key == s'.fired[i].slot.key ensures Disjoint(s'.fired[i].slot.win, k.win) {
      CloseOpen(gap, s, order, i, k);
    }
  }

  /** What has fired was fired before, or is a listed window with its records. */
  lemma CloseFrom(s: State, order: seq<Slot>, i: nat)
    requires (forall i :: 0 <= i < |order| ==> order[i] in s.open) && i < |Close(s, order).fired|
    ensures var f := Close(s, order).fired[i];
            if i < |s.fired| then f == s.fired[i] else f == Fired(order[i - |s.fired|], s.open[order[i - |s.fired|]])
  {
  }

  lemma CloseCluster(gap: int, s: State, order: seq<Slot>, i: nat)
    requires OpenOk(gap, s) && FiredOk(gap, s) && Closable(s, order) && i < |Close(s, order).fired|
    ensures var f := Close(s, order).fired[i]; Cluster(gap, f.slot, f.recs) && NoDup(f.recs)
  {
    CloseFrom(s, order, i);
  }

  lemma CloseApart(gap: int, s: State, order: seq<Slot>, i: nat, j: nat)
    requires OpenOk(gap, s) && FiredOk(gap, s) && Closable(s, order) && i < j < |Close(s, order).fired|
    requires Close(s, order).fired[i].slot.key == Close(s, order).fired[j].slot.key
    ensures Disjoint(Close(s, order).fired[i].slot.win, Close(s, order).fired[j].slot.win)
  {
    CloseFrom(s, order, i);
    CloseFrom(s, order, j);
  }

  lemma CloseOpen(gap: int, s: State, order: seq<Slot>, i: nat, k: Slot)
    requires OpenOk(gap, s) && FiredOk(gap, s) && Closable(s, order) && i < |Close(s, order).fired|
    requires k in Close(s, order).open && k.key == Close(s, order).fired[i].slot.key
    ensures Disjoint(Close(s, order).fired[i].slot.win, k.win)
  {
    CloseFrom(s, order, i);
    if i >= |s.fired| {
      assert order[i - |s.fired|] in Keys(order);
    }
  }

  lemma CloseHeld(s: State, rs: seq<Rec>, order: seq<Slot>)
    requires Holds(s, rs) && Closable(s, order)
    ensures Holds(Close(s, order), rs)
  {
    forall q ensures Held(s, q) <==> Held(Close(s, order), q) {
      CloseStill(s, order, q);
      CloseWas(s, order, q);
    }
  }

  lemma CloseStill(s: State, order: seq<Slot>, q: Rec)
    requires Closable(s, order)
    ensures Held(s, q) ==> Held(Close(s, order), q)
  {
    var s' := Close(s, order);
    if k :| k in s.open && q in s.open[k] {
      if k in Keys(order) {
        var i :| 0 <= i < |order| && order[i] == k;
        assert q in s'.fired[|s.fired| + i].recs;
      } else {
        assert q in s'.open[k];
      }
    }
    if i :| 0 <= i < |s.fired| && q in s.fired[i].recs {
      assert q in s'.fired[i].recs;
    }
  }

  lemma CloseWas(s: State, order: seq<Slot>, q: Rec)
    requires Closable(s, order)
    ensures Held(Close(s, order), q) ==> Held(s, q)
  {
    var s' := Close(s, order);
    if k :| k in s'.open && q in s'.open[k] {
      assert q in s.open[k];
    }
    if i :| 0 <= i < |s'.fired| && q in s'.fired[i].recs {
      if i < |s.fired| {
        assert q in s.fired[i].recs;
      } else {
        assert q in s.open[order[i - |s.fired|]];
      }
    }
  }

  /** Every window that fires is due. */
  lemma CloseDue(s: State, order: seq<Slot>, lateness: nat)
    requires forall i :: 0 <= i < |s.fired| ==> s.fired[i].slot.win.end + lateness <= s.wm
    requires forall i :: 0 <= i < |order| ==> order[i] in Due(s.open, s.wm, lateness)
    ensures forall i :: 0 <= i < |Close(s, order).fired| ==> Close(s, order).fired[i].slot.win.end + lateness <= s.wm
  {
  }

  // ---- Sessions are components ------------------------------------------------------------------------------

  /** In a cluster every record is linked to the last one. */
  lemma {:induction false} Climb(gap: int, k: Slot, recs: seq<Rec>, rs: seq<Rec>, a: Rec) returns (m: Rec, path: seq<Rec>)
    requires gap > 0 && Cluster(gap, k, recs) && (forall r :: r in recs ==> r in rs) && a in recs
    ensures m in recs && m.ts == k.win.end - gap && Path(gap, rs, a, m, path)
    decreases k.win.end - a.ts
  {
    assert Followed(gap, k, recs, a);
    if a.ts == k.win.end - gap {
      m, path := a, [a];
    } else {
      var q :| q in recs && a.ts < q.ts < a.ts + gap;
      m, path := Climb(gap, k, recs, rs, q);
      path := [a] + path;
    }
  }

  function Reverse<T>(s: seq<T>): (r: seq<T>)
    ensures |r| == |s| && forall i :: 0 <= i < |s| ==> r[i] == s[|s| - 1 - i]
  {
    if s == [] then [] else [s[|s| - 1]] + Reverse(s[..|s| - 1])
  }

  lemma Back(gap: int, rs: seq<Rec>, a: Rec, b: Rec, path: seq<Rec>)
    requires Path(gap, rs, a, b, path)
    ensures Path(gap, rs, b, a, Reverse(path))
  {
    var rev, n := Reverse(path), |path|;
    forall i | 0 < i < n ensures Near(gap, rev[i - 1], rev[i]) {
      assert Near(gap, path[n - 1 - i], path[n - i]);
    }
  }

  lemma JoinPaths(gap: int, rs: seq<Rec>, a: Rec, m: Rec, p: seq<Rec>, l: Rec, b: Rec, q: seq<Rec>)
    requires Path(gap, rs, a, m, p) && Path(gap, rs, l, b, q) && Near(gap, m, l) && m.key == l.key
    ensures Path(gap, rs, a, b, p + q)
  {
    forall i | 0 < i < |p + q| ensures Near(gap, (p + q)[i - 1], (p + q)[i]) {
      if i > |p| {
        assert Near(gap, q[i - |p| - 1], q[i - |p|]);
      }
    }
  }

  lemma TogetherConnected(gap: int, rs: seq<Rec>, f: Fired, a: Rec, b: Rec)
    requires gap > 0 && Cluster(gap, f.slot, f.recs) && (forall r :: r in f.recs ==> r in rs) && a in f.recs && b in f.recs
    ensures Connected(gap, rs, a, b)
  {
    var m, p := Climb(gap, f.slot, f.recs, rs, a);
    var l, q := Climb(gap, f.slot, f.recs, rs, b);
    Back(gap, rs, b, l, q);
    JoinPaths(gap, rs, a, m, p, l, b, Reverse(q));
  }

  /** Records of one key within the gap of each other are in the same session. */
  lemma NearTogether(gap: int, s: State, rs: seq<Rec>, i: nat, a: Rec, b: Rec)
    requires gap > 0 && FiredOk(gap, s) && Holds(s, rs) && s.open == map[]
    requires i < |s.fired| && a in s.fired[i].recs && b in rs && a.key == b.key && Near(gap, a, b)
    ensures b in s.fired[i].recs
  {
    assert Held(s, b);
    var j :| 0 <= j < |s.fired| && b in s.fired[j].recs;
    assert i < j ==> Disjoint(s.fired[i].slot.win, s.fired[j].slot.win);
    assert j < i ==> Disjoint(s.fired[j].slot.win, s.fired[i].slot.win);
  }

  lemma {:induction false} ConnectedTogether(gap: int, s: State, rs: seq<Rec>, i: nat, a: Rec, b: Rec, path: seq<Rec>)
    requires gap > 0 && FiredOk(gap, s) && Holds(s, rs) && s.open == map[]
    requires i < |s.fired| && a in s.fired[i].recs && Path(gap, rs, a, b, path)
    ensures b in s.fired[i].recs
    decreases |path|
  {
    if |path| > 1 {
      var c := PathStep(gap, rs, a, b, path);
      ConnectedTogether(gap, s, rs, i, a, c, path[..|path| - 1]);
      NearTogether(gap, s, rs, i, c, b);
    }
  }

  /** The last step of a path. */
  lemma PathStep(gap: int, recs: seq<Rec>, a: Rec, b: Rec, path: seq<Rec>) returns (c: Rec)
    requires Path(gap, recs, a, b, path) && |path| > 1
    ensures Path(gap, recs, a, c, path[..|path| - 1]) && Near(gap, c, b) && c in recs && b in recs
  {
    c := path[|path| - 2];
    assert Near(gap, path[|path| - 2], path[|path| - 1]);
  }

  lemma FlushedComponents(gap: int, s: State, rs: seq<Rec>)
    requires gap > 0 && FiredOk(gap, s) && Holds(s, rs) && s.open == map[]
    ensures Components(gap, rs, s.fired)
  {
    forall i, r | 0 <= i < |s.fired| && r in s.fired[i].recs ensures r in rs {
      assert Held(s, r);
    }
    forall i, j, r | 0 <= i < j < |s.fired| && r in s.fired[i].recs ensures r !in s.fired[j].recs {
      if s.fired[i].slot.key == s.fired[j].slot.key {
        NoCommon(gap, s.fired[i].slot, s.fired[i].recs, s.fired[j].slot, s.fired[j].recs, r);
      }
    }
    forall a | a in rs ensures Together(s.fired, a, a) {
      assert Held(s, a);
    }
    forall a, b | a in rs && b in rs && a.key == b.key
      ensures Together(s.fired, a, b) <==> Connected(gap, rs, a, b) {
      SameComponent(gap, s, rs, a, b);
    }
  }

  lemma SameComponent(gap: int, s: State, rs: seq<Rec>, a: Rec, b: Rec)
    requires gap > 0 && FiredOk(gap, s) && Holds(s, rs) && s.open == map[]
    requires a in rs && b in rs && a.key == b.key
    ensures Together(s.fired, a, b) <==> Connected(gap, rs, a, b)
  {
    if i :| 0 <= i < |s.fired| && a in s.fired[i].recs && b in s.fired[i].recs {
      forall r | r in s.fired[i].recs ensures r in rs {
        assert Held(s, r);
      }
      TogetherConnected(gap, rs, s.fired[i], a, b);
    }
    if path :| Path(gap, rs, a, b, path) {
      assert Held(s, a);
      var i :| 0 <= i < |s.fired| && a in s.fired[i].recs;
      ConnectedTogether(gap, s, rs, i, a, b, path);
    }
  }
}
