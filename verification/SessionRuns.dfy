/** Session windows over whole runs. */
module SessionRuns {
  import opened Prelude
  import opened WindowAssign
  import opened Windows
  import opened SessionWindows

  // ---- Event times in their stored form ------------------------------------------------------

  predicate Far(gap: int, t: int, u: int) { t - u >= gap || u - t >= gap }

  /** Stored sessions keep their place. */
  ghost predicate Places(gap: int, times: iset<int>) {
    forall t :: t in times ==> PlacedAt(gap, times, t)
  }

  /**
    A session of time `t` alone is stored within the int64 range, and a time before that range is, as
    it is and as it is stored, at least the gap from every other time.
   */
  ghost predicate PlacedAt(gap: int, times: iset<int>, t: int) {
    t <= MAX_NANOS && Fits(UnixNano(t) + gap) && (Fits(t) || Alone(gap, times, t))
  }

  ghost predicate Alone(gap: int, times: iset<int>, t: int) {
    forall u :: u in times && u != t ==> Far(gap, t, u) && Far(gap, UnixNano(t), UnixNano(u))
  }

  /** A time before the int64 range that is stored within it lies at least the gap before it. */
  lemma LowAway(gap: int, t: int)
    requires gap > 0 && t < MIN_NANOS && Fits(UnixNano(t) + gap)
    ensures t + gap < MIN_NANOS
  {
    var turns := (t - MIN_NANOS) / 0x1_0000_0000_0000_0000;
    assert UnixNano(t) == t - turns * 0x1_0000_0000_0000_0000;
    assert turns <= -1;
  }

  /** Storing times changes nothing about which of them are within the gap. */
  lemma NearStored(gap: int, times: iset<int>, t: int, u: int)
    requires gap > 0 && Places(gap, times) && t in times && u in times
    ensures Far(gap, t, u) <==> Far(gap, UnixNano(t), UnixNano(u))
    ensures !Far(gap, UnixNano(t), UnixNano(u)) && !Fits(t) ==> t == u
  {
    assert PlacedAt(gap, times, t) && PlacedAt(gap, times, u);
  }

  /** Records without a timestamp keep their place next to records that are at least the gap after the year 1754. */
  lemma UnsetPlaces(gap: int, times: iset<int>)
    requires 0 < gap <= MAX_NANOS
    requires forall t :: t in times && t != ZERO_TIME ==> t >= UnixNano(ZERO_TIME) + gap && Fits(t + gap)
    ensures Places(gap, times)
  {
    assert UnixNano(ZERO_TIME) == -6795364578871345152;
    forall t | t in times ensures PlacedAt(gap, times, t) {
    }
  }

  lemma HeldTime(times: iset<int>, s: State, q: Rec) returns (t: int)
    requires AllHeld(times, s) && Held(s, q)
    ensures t in times && q.ts == UnixNano(t)
  {
    assert q in KeptAll(s.accepted);
    var i :| 0 <= i < |s.accepted| && KeptAll(s.accepted)[i] == q;
    t := s.accepted[i].ts;
  }

  lemma OpenFits(gap: int, times: iset<int>, s: State, k: Slot)
    requires gap > 0 && Places(gap, times) && OpenOk(gap, s) && AllHeld(times, s) && k in s.open
    ensures Fits(k.win.start) && Fits(k.win.end) && k.win.start < k.win.end
  {
    ClusterSpan(gap, k, s.open[k]);
    var q := PartEnd(gap, k, s.open[k], true);
    var p := PartEnd(gap, k, s.open[k], false);
    assert Held(s, q) && Held(s, p);
    var t := HeldTime(times, s, q);
    var u := HeldTime(times, s, p);
    assert PlacedAt(gap, times, u);
  }

  // ---- Records ---------------------------------------------------------------------------------

  /** What a record does: nothing when it is too late, else it is placed. */
  ghost predicate Handled(gap: int, lateness: nat, s: State, r: Rec, order: seq<Slot>, s': State) {
    if TooLate(lateness, s.wm, r.ts) then s' == s
    else
      && r.n == |s.accepted| && Lists(order, Touching(s.open, r.key, Win(r.ts, r.ts + gap)))
      && s' == s.(open := PlaceSession(s.open, Win(r.ts, r.ts + gap), Kept(r), order), accepted := s.accepted + [r])
  }

  lemma RecordStep(gap: int, lateness: nat, s: State, e: Event, s': State)
    requires e.Record? && Step(Sessions(gap), lateness, s, e) == Some(s')
    ensures Handled(gap, lateness, s, e.r, e.order, s')
  {
  }

  /** What joining the sessions in `order` makes of the open windows. */
  function Rejoined(gap: int, open: map<Slot, seq<Rec>>, r: Rec, order: seq<Slot>): map<Slot, seq<Rec>> {
    (open - Keys(order))[Joined(gap, r, order) := Gather(open, order) + [r]]
  }

  lemma {:induction false} HullFits(order: seq<Slot>, w: Win)
    requires Wrap(w) == w && forall i :: 0 <= i < |order| ==> Wrap(order[i].win) == order[i].win
    ensures Wrap(Hull(order, w)) == Hull(order, w)
  {
    if order != [] {
      HullFits(order[..|order| - 1], w);
      assert Wrap(order[|order| - 1].win) == order[|order| - 1].win;
    }
  }

  lemma PlaceShape(gap: int, open: map<Slot, seq<Rec>>, r: Rec, order: seq<Slot>)
    requires Joins(gap, open, r, order) && Wrap(Hull(order, Win(r.ts, r.ts + gap))) == Hull(order, Win(r.ts, r.ts + gap))
    ensures PlaceSession(open, Win(r.ts, r.ts + gap), r, order) == Rejoined(gap, open, r, order)
  {
    JoinedNew(gap, open, r, order);
    assert [] + [r] == [r];
    assert order == [] ==> open - Keys(order) == open;
    assert [] + (Gather(open, order) + [r]) == Gather(open, order) + [r];
  }

  /** A record whose time fits joins the sessions it overlaps. */
  lemma PlainJoin(gap: int, times: iset<int>, s: State, r: Rec, order: seq<Slot>)
    requires gap > 0 && Places(gap, times) && OpenOk(gap, s) && AllHeld(times, s) && r.ts in times && Fits(r.ts)
    requires Lists(order, Touching(s.open, r.key, Win(r.ts, r.ts + gap)))
    ensures Joins(gap, s.open, r, order)
    ensures PlaceSession(s.open, Win(r.ts, r.ts + gap), r, order) == Rejoined(gap, s.open, r, order)
  {
    assert PlacedAt(gap, times, r.ts);
    forall i | 0 <= i < |order| ensures Wrap(order[i].win) == order[i].win {
      OpenFits(gap, times, s, order[i]);
    }
    HullFits(order, Win(r.ts, r.ts + gap));
    PlaceShape(gap, s.open, r, order);
  }

  /** A session that a stored time outside the int64 range touches is one of that time alone. */
  lemma OwnSession(gap: int, times: iset<int>, s: State, t: int, k: Slot)
    requires gap > 0 && Places(gap, times) && OpenOk(gap, s) && AllHeld(times, s) && t in times && !Fits(t)
    requires k in s.open && k.win.Overlaps(Win(UnixNano(t), UnixNano(t) + gap))
    ensures k.win == Win(UnixNano(t), UnixNano(t) + gap)
  {
    var n, recs := UnixNano(t), s.open[k];
    ClusterSpan(gap, k, recs);
    forall q | q in recs && !Far(gap, n, q.ts) ensures q.ts == n {
      assert Held(s, q);
      var u := HeldTime(times, s, q);
      NearStored(gap, times, t, u);
    }
    AloneInCluster(gap, k, recs, n);
  }

  lemma AloneInCluster(gap: int, k: Slot, recs: seq<Rec>, n: int)
    requires gap > 0 && Cluster(gap, k, recs) && k.win.start < n + gap && n < k.win.end
    requires forall q :: q in recs && !Far(gap, n, q.ts) ==> q.ts == n
    ensures k.win == Win(n, n + gap)
  {
    var first := PartEnd(gap, k, recs, true);
    var last := PartEnd(gap, k, recs, false);
    if first.ts < n {
      var x := LatestAtMost(recs, n - 1);
    }
    if last.ts > n && first.ts <= n {
      var q := NextAfter(gap, k, recs, n);
    }
  }

  /** The session of a stored time outside the int64 range, if there is one. */
  lemma LowListing(gap: int, times: iset<int>, s: State, t: int, key: string, w: Win) returns (joins: seq<Slot>)
    requires gap > 0 && Places(gap, times) && OpenOk(gap, s) && AllHeld(times, s) && t in times && !Fits(t)
    requires w == Win(UnixNano(t), UnixNano(t) + gap)
    ensures Lists(joins, Touching(s.open, key, w)) && forall i :: 0 <= i < |joins| ==> joins[i] == Slot(key, w)
  {
    joins := Listing(Touching(s.open, key, w));
    forall i | 0 <= i < |joins| ensures joins[i] == Slot(key, w) {
      assert joins[i] in Touching(s.open, key, w);
      OwnSession(gap, times, s, t, joins[i]);
    }
  }

  /** A record whose time does not fit finds no session, and goes to the one of its stored time. */
  lemma LowJoin(gap: int, times: iset<int>, s: State, r: Rec, order: seq<Slot>) returns (joins: seq<Slot>)
    requires gap > 0 && Places(gap, times) && OpenOk(gap, s) && AllHeld(times, s) && r.ts in times && !Fits(r.ts)
    requires Lists(order, Touching(s.open, r.key, Win(r.ts, r.ts + gap)))
    ensures Joins(gap, s.open, Kept(r), joins)
    ensures PlaceSession(s.open, Win(r.ts, r.ts + gap), Kept(r), order) == Rejoined(gap, s.open, Kept(r), joins)
  {
    assert PlacedAt(gap, times, r.ts);
    LowAway(gap, r.ts);
    NoneTouched(gap, times, s, r, order);
    StoredWin(r.ts, gap);
    joins := LowListing(gap, times, s, r.ts, r.key, Win(Kept(r).ts, Kept(r).ts + gap));
    OneOrNone(gap, s.open, Kept(r), joins);
  }

  lemma NoneTouched(gap: int, times: iset<int>, s: State, r: Rec, order: seq<Slot>)
    requires gap > 0 && Places(gap, times) && OpenOk(gap, s) && AllHeld(times, s) && r.ts + gap <= MIN_NANOS
    requires Lists(order, Touching(s.open, r.key, Win(r.ts, r.ts + gap)))
    ensures order == []
  {
    if order != [] {
      OpenFits(gap, times, s, order[0]);
    }
  }

  lemma StoredWin(t: int, gap: int)
    requires Fits(UnixNano(t) + gap)
    ensures Wrap(Win(t, t + gap)) == Win(UnixNano(t), UnixNano(t) + gap)
  {
  }

  /** Appending to the session of exactly the record's window is joining it. */
  lemma OneOrNone(gap: int, open: map<Slot, seq<Rec>>, q: Rec, joins: seq<Slot>)
    requires gap > 0 && Lists(joins, Touching(open, q.key, Win(q.ts, q.ts + gap)))
    requires forall i :: 0 <= i < |joins| ==> joins[i] == Slot(q.key, Win(q.ts, q.ts + gap))
    ensures Append(open, Slot(q.key, Win(q.ts, q.ts + gap)), [q]) == Rejoined(gap, open, q, joins)
  {
    var k := Slot(q.key, Win(q.ts, q.ts + gap));
    assert k in open ==> k in Touching(open, q.key, k.win);
    if joins == [] {
      assert Keys(joins) == {} && open - Keys(joins) == open;
      assert [] + [q] == [q];
    } else {
      DistinctWithin(joins, {k});
      assert joins == [k] && joins[..0] == [] && Keys(joins) == {k};
      assert Gather(open, joins) == Gather(open, joins[..0]) + Get(open, k) == open[k];
      assert Hull(joins, k.win) == k.win;
    }
  }

  lemma AcceptKeeps(gap: int, times: iset<int>, lateness: nat, s: State, r: Rec, order: seq<Slot>, s': State)
    requires gap > 0 && Places(gap, times) && Inv(gap, times, lateness, s) && r.ts in times && r.n == |s.accepted|
    requires !TooLate(lateness, s.wm, r.ts) && Lists(order, Touching(s.open, r.key, Win(r.ts, r.ts + gap)))
    requires s' == s.(open := PlaceSession(s.open, Win(r.ts, r.ts + gap), Kept(r), order), accepted := s.accepted + [r])
    ensures Inv(gap, times, lateness, s')
  {
    if Fits(r.ts) {
      PlainJoin(gap, times, s, r, order);
      JoinKeeps(gap, times, lateness, s, r, order, s');
    } else {
      assert PlacedAt(gap, times, r.ts);
      var joins := LowJoin(gap, times, s, r, order);
      JoinKeeps(gap, times, lateness, s, r, joins, s');
    }
  }

  lemma RecordKeeps(gap: int, times: iset<int>, lateness: nat, s: State, r: Rec, order: seq<Slot>, s': State)
    requires gap > 0 && Places(gap, times) && Inv(gap, times, lateness, s) && r.ts in times && Handled(gap, lateness, s, r, order, s')
    ensures Inv(gap, times, lateness, s')
  {
    if !TooLate(lateness, s.wm, r.ts) {
      AcceptKeeps(gap, times, lateness, s, r, order, s');
    }
  }

  lemma JoinKeeps(gap: int, times: iset<int>, lateness: nat, s: State, r: Rec, order: seq<Slot>, s': State)
    requires Inv(gap, times, lateness, s) && Joins(gap, s.open, Kept(r), order) && r.n == |s.accepted| && r.ts in times
    requires !TooLate(lateness, s.wm, Kept(r).ts)
    requires s' == s.(open := Rejoined(gap, s.open, Kept(r), order), accepted := s.accepted + [r])
    ensures Inv(gap, times, lateness, s')
  {
    var q := Kept(r);
    PartsOf(gap, s.open, q, order);
    JoinedNew(gap, s.open, q, order);
    NewRecord(times, s, q);
    RecordOpen(gap, s, q, order, s');
    RecordFired(gap, lateness, s, q, order, s');
    JoinHeld(times, s, r, order, Joined(gap, q, order), s');
  }

  lemma JoinHeld(times: iset<int>, s: State, r: Rec, order: seq<Slot>, k: Slot, s': State)
    requires AllHeld(times, s) && (forall i :: 0 <= i < |order| ==> order[i] in s.open) && k !in s.open - Keys(order)
    requires r.n == |s.accepted| && r.ts in times && s'.fired == s.fired && s'.accepted == s.accepted + [r]
    requires s'.open == (s.open - Keys(order))[k := Gather(s.open, order) + [Kept(r)]]
    ensures AllHeld(times, s')
  {
    RecordHeld(s, KeptAll(s.accepted), Kept(r), order, k, s');
    assert s'.accepted[..|s.accepted|] == s.accepted;
    assert KeptAll(s'.accepted) == KeptAll(s.accepted) + [Kept(r)];
  }

  lemma NewRecord(times: iset<int>, s: State, q: Rec)
    requires AllHeld(times, s) && q.n == |s.accepted|
    ensures forall k :: k in s.open ==> q !in s.open[k]
  {
    forall k | k in s.open ensures q !in s.open[k] {
      assert q in s.open[k] ==> Held(s, q);
    }
  }

  // ---- Watermarks ------------------------------------------------------------------------------

  lemma WatermarkKeeps(gap: int, times: iset<int>, lateness: nat, s: State, e: Event)
    requires gap > 0 && Places(gap, times) && Inv(gap, times, lateness, s)
    requires e.Watermark? && Step(Sessions(gap), lateness, s, e).Some?
    ensures Inv(gap, times, lateness, Step(Sessions(gap), lateness, s, e).value)
  {
    var s1 := s.(wm := if e.t > s.wm then e.t else s.wm);
    WatermarkCloses(gap, times, s, s1.wm, e.order);
    if s1.wm == ZERO_TIME {
      NoneDue(gap, times, lateness, s, e.order);
    }
    CloseDue(s1, e.order, lateness);
  }

  lemma WatermarkCloses(gap: int, times: iset<int>, s: State, wm: int, order: seq<Slot>)
    requires OpenOk(gap, s) && FiredOk(gap, s) && AllHeld(times, s) && Closable(s, order)
    ensures var s' := Close(s.(wm := wm), order); OpenOk(gap, s') && FiredOk(gap, s') && AllHeld(times, s')
  {
    var s1 := s.(wm := wm);
    assert forall q :: Held(s, q) <==> Held(s1, q);
    CloseFired(gap, s1, order);
    CloseHeld(s1, KeptAll(s.accepted), order);
  }

  lemma NoneDue(gap: int, times: iset<int>, lateness: nat, s: State, order: seq<Slot>)
    requires gap > 0 && Places(gap, times) && OpenOk(gap, s) && AllHeld(times, s)
    requires Lists(order, Due(s.open, ZERO_TIME, lateness))
    ensures order == []
  {
    if order != [] {
      assert order[0] in s.open;
      OpenFits(gap, times, s, order[0]);
    }
  }

  lemma {:induction false} ExecKeeps(gap: int, times: iset<int>, lateness: nat, es: seq<Event>)
    requires gap > 0 && Places(gap, times) && Over(es, times) && Exec(Sessions(gap), lateness, Init(), es).Some?
    ensures Inv(gap, times, lateness, Exec(Sessions(gap), lateness, Init(), es).value)
  {
    if es != [] {
      var s, e := Exec(Sessions(gap), lateness, Init(), es[..|es| - 1]).value, es[|es| - 1];
      ExecKeeps(gap, times, lateness, es[..|es| - 1]);
      if e.Record? {
        RecordStep(gap, lateness, s, e, Step(Sessions(gap), lateness, s, e).value);
        RecordKeeps(gap, times, lateness, s, e.r, e.order, Step(Sessions(gap), lateness, s, e).value);
      } else {
        WatermarkKeeps(gap, times, lateness, s, e);
      }
    }
  }

  // ---- Components of the accepted records ------------------------------------------------------------

  /**
    The fired sessions hold the stored copies of the accepted records, each in one session, once, the
    sessions of one key do not overlap, and two records of one key are in the same session exactly
    when they are connected by gaps in event time.
   */
  ghost predicate Clustered(gap: int, s: State) {
    && Separate(s.fired) && Partition(gap, KeptAll(s.accepted), s.fired)
    && (forall a, b :: a in s.accepted && b in s.accepted && a.key == b.key ==>
          (Together(s.fired, Kept(a), Kept(b)) <==> Connected(gap, s.accepted, a, b)))
  }

  ghost predicate Separate(fired: seq<Fired>) {
    forall i, j :: 0 <= i < j < |fired| && fired[i].slot.key == fired[j].slot.key ==> Disjoint(fired[i].slot.win, fired[j].slot.win)
  }

  /** Numbered records of times that keep their place. */
  ghost predicate Numbered(times: iset<int>, rs: seq<Rec>) {
    forall i :: 0 <= i < |rs| ==> rs[i].n == i && rs[i].ts in times
  }

  lemma StoredNear(gap: int, times: iset<int>, a: Rec, b: Rec)
    requires gap > 0 && Places(gap, times) && a.ts in times && b.ts in times
    ensures Near(gap, a, b) <==> Near(gap, Kept(a), Kept(b))
  {
    NearStored(gap, times, a.ts, b.ts);
  }

  lemma StoredPath(gap: int, times: iset<int>, rs: seq<Rec>, a: Rec, b: Rec, path: seq<Rec>)
    requires gap > 0 && Places(gap, times) && Numbered(times, rs) && Path(gap, rs, a, b, path)
    ensures Path(gap, KeptAll(rs), Kept(a), Kept(b), KeptAll(path))
  {
    forall i | 0 <= i < |path| ensures Kept(path[i]) in KeptAll(rs) {
      InStored(rs, path[i]);
    }
    forall i | 0 < i < |path| ensures Near(gap, Kept(path[i - 1]), Kept(path[i])) {
      StepStored(gap, times, rs, path[i - 1], path[i]);
    }
  }

  lemma StepStored(gap: int, times: iset<int>, rs: seq<Rec>, a: Rec, b: Rec)
    requires gap > 0 && Places(gap, times) && Numbered(times, rs) && a in rs && b in rs && Near(gap, a, b)
    ensures Near(gap, Kept(a), Kept(b))
  {
    StoredNear(gap, times, a, b);
  }

  /** The accepted record behind a stored copy. */
  lemma Original(times: iset<int>, rs: seq<Rec>, q: Rec)
    requires Numbered(times, rs) && q in KeptAll(rs)
    ensures q.n < |rs| && Kept(rs[q.n]) == q && rs[q.n].ts in times
  {
    var i :| 0 <= i < |rs| && KeptAll(rs)[i] == q;
  }

  lemma OriginalPath(gap: int, times: iset<int>, rs: seq<Rec>, a: Rec, b: Rec, path: seq<Rec>)
    requires gap > 0 && Places(gap, times) && Numbered(times, rs) && a in rs && b in rs
    requires Path(gap, KeptAll(rs), Kept(a), Kept(b), path)
    ensures Connected(gap, rs, a, b)
  {
    forall i | 0 <= i < |path| ensures path[i].n < |rs| && Kept(rs[path[i].n]) == path[i] {
      Original(times, rs, path[i]);
    }
    var back := seq(|path|, i requires 0 <= i < |path| => rs[path[i].n]);
    BackPath(gap, times, rs, a, b, path, back);
  }

  lemma BackPath(gap: int, times: iset<int>, rs: seq<Rec>, a: Rec, b: Rec, path: seq<Rec>, back: seq<Rec>)
    requires gap > 0 && Places(gap, times) && Numbered(times, rs) && a in rs && b in rs
    requires Path(gap, KeptAll(rs), Kept(a), Kept(b), path)
    requires |back| == |path| && forall i :: 0 <= i < |back| ==> back[i] in rs && Kept(back[i]) == path[i]
    ensures Path(gap, rs, a, b, back)
  {
    forall i | 0 < i < |back| ensures Near(gap, back[i - 1], back[i]) {
      assert Near(gap, path[i - 1], path[i]);
      StoredNear(gap, times, back[i - 1], back[i]);
    }
    SameRecord(times, rs, a, back[0]);
    SameRecord(times, rs, b, back[|back| - 1]);
  }

  lemma SameRecord(times: iset<int>, rs: seq<Rec>, a: Rec, b: Rec)
    requires Numbered(times, rs) && a in rs && b in rs && Kept(a) == Kept(b)
    ensures a == b
  {
  }

  lemma StoredConnected(gap: int, times: iset<int>, rs: seq<Rec>, a: Rec, b: Rec)
    requires gap > 0 && Places(gap, times) && Numbered(times, rs) && a in rs && b in rs
    ensures Connected(gap, rs, a, b) <==> Connected(gap, KeptAll(rs), Kept(a), Kept(b))
  {
    if path :| Path(gap, rs, a, b, path) {
      StoredPath(gap, times, rs, a, b, path);
    }
    if path :| Path(gap, KeptAll(rs), Kept(a), Kept(b), path) {
      OriginalPath(gap, times, rs, a, b, path);
    }
  }

  lemma InStored(rs: seq<Rec>, a: Rec)
    requires a in rs
    ensures Kept(a) in KeptAll(rs)
  {
    var i :| 0 <= i < |rs| && rs[i] == a;
    assert KeptAll(rs)[i] == Kept(a);
  }

  /** Every complete run over times that keep their place fires the components of what it accepted. */
  lemma SessionsAreComponents(gap: int, times: iset<int>, lateness: nat, es: seq<Event>, order: seq<Slot>)
    requires gap > 0 && Places(gap, times) && Over(es, times) && Exec(Sessions(gap), lateness, Init(), es).Some?
    requires Flush(Exec(Sessions(gap), lateness, Init(), es).value, order).Some?
    ensures Clustered(gap, Flush(Exec(Sessions(gap), lateness, Init(), es).value, order).value)
  {
    ExecKeeps(gap, times, lateness, es);
    var s := Exec(Sessions(gap), lateness, Init(), es).value;
    CloseFired(gap, s, order);
    CloseHeld(s, KeptAll(s.accepted), order);
    var s' := Flush(s, order).value;
    assert s'.open == map[];
    FlushedComponents(gap, s', KeptAll(s'.accepted));
    ClusteredOf(gap, times, s');
  }

  lemma ClusteredOf(gap: int, times: iset<int>, s: State)
    requires gap > 0 && Places(gap, times) && Numbered(times, s.accepted) && Components(gap, KeptAll(s.accepted), s.fired)
    requires Separate(s.fired)
    ensures Clustered(gap, s)
  {
    forall a, b | a in s.accepted && b in s.accepted && a.key == b.key
      ensures Together(s.fired, Kept(a), Kept(b)) <==> Connected(gap, s.accepted, a, b) {
      InStored(s.accepted, a);
      InStored(s.accepted, b);
      StoredConnected(gap, times, s.accepted, a, b);
    }
  }

  // ---- Sessions that are not components -----------------------------------------------------------------

  /** Every complete run over these times, in any arrival order and under any watermarks, fires the components of what it accepted. */
  ghost predicate AlwaysComponents(gap: int, times: iset<int>, lateness: nat) {
    forall es, order {:trigger Flush(Exec(Sessions(gap), lateness, Init(), es).value, order)} ::
      Over(es, times) && Exec(Sessions(gap), lateness, Init(), es).Some?
      && Flush(Exec(Sessions(gap), lateness, Init(), es).value, order).Some? ==>
        Clustered(gap, Flush(Exec(Sessions(gap), lateness, Init(), es).value, order).value)
  }

  lemma Refutes(gap: int, times: iset<int>, lateness: nat, es: seq<Event>, s: State, order: seq<Slot>)
    requires Over(es, times) && Exec(Sessions(gap), lateness, Init(), es) == Some(s)
    requires Flush(s, order).Some? && !Clustered(gap, Flush(s, order).value)
    ensures !AlwaysComponents(gap, times, lateness)
  {
    assert Flush(Exec(Sessions(gap), lateness, Init(), es).value, order).Some?;
  }

  lemma TwoSteps(a: Assigner, lateness: nat, e0: Event, s1: State, e1: Event, s2: State)
    requires Step(a, lateness, Init(), e0) == Some(s1) && Step(a, lateness, s1, e1) == Some(s2)
    ensures Exec(a, lateness, Init(), [e0, e1]) == Some(s2)
  {
    Extend(a, lateness, [], Init(), e0, s1);
    Extend(a, lateness, [e0], s1, e1, s2);
    assert [e0, e1] == [] + [e0] + [e1];
  }

  lemma ThreeSteps(a: Assigner, lateness: nat, e0: Event, s1: State, e1: Event, s2: State, e2: Event, s3: State)
    requires Step(a, lateness, Init(), e0) == Some(s1) && Step(a, lateness, s1, e1) == Some(s2) && Step(a, lateness, s2, e2) == Some(s3)
    ensures Exec(a, lateness, Init(), [e0, e1, e2]) == Some(s3)
  {
    TwoSteps(a, lateness, e0, s1, e1, s2);
    Extend(a, lateness, [e0, e1], s2, e2, s3);
    assert [e0, e1, e2] == [e0, e1] + [e2];
  }

  /** A record that overlaps no open session opens one, or goes to the one stored under the same bounds. */
  lemma OpensSession(gap: int, lateness: nat, s: State, r: Rec, k: Slot, recs: seq<Rec>, s': State)
    requires !TooLate(lateness, s.wm, r.ts) && r.n == |s.accepted| && k == Slot(r.key, Wrap(Win(r.ts, r.ts + gap)))
    requires forall l :: l in s.open ==> !l.win.Overlaps(Win(r.ts, r.ts + gap))
    requires recs == Get(s.open, k) + [Kept(r)]
    requires s' == s.(open := s.open[k := recs], accepted := s.accepted + [r])
    ensures Step(Sessions(gap), lateness, s, Record(r, [])) == Some(s')
  {
    assert Touching(s.open, r.key, Session(r.ts, gap)[0]) == {};
    assert Lists([], Touching(s.open, r.key, Session(r.ts, gap)[0]));
  }

  /** A record that overlaps the only open session joins it. */
  lemma JoinsSession(gap: int, lateness: nat, s: State, r: Rec, l: Slot, recs: seq<Rec>, k: Slot, s': State)
    requires !TooLate(lateness, s.wm, r.ts) && r.n == |s.accepted| && s.open == map[l := recs] && l.key == r.key
    requires l.win.Overlaps(Win(r.ts, r.ts + gap)) && k == Slot(r.key, Wrap(Hull([l], Win(r.ts, r.ts + gap))))
    requires s' == s.(open := map[k := recs + [Kept(r)]], accepted := s.accepted + [r])
    ensures Step(Sessions(gap), lateness, s, Record(r, [l])) == Some(s')
  {
    assert Touching(s.open, r.key, Session(r.ts, gap)[0]) == {l};
    assert Lists([l], Touching(s.open, r.key, Session(r.ts, gap)[0]));
    assert [l][..0] == [] && Gather(s.open, [l]) == Gather(s.open, []) + recs == recs;
    assert s.open - Keys([l]) == map[];
    assert [] + (recs + [Kept(r)]) == recs + [Kept(r)];
  }

  function FirstOf(t: int): Rec { Rec("", t, [], 0) }

  function SecondOf(u: int): Rec { Rec("", u, [], 1) }

  function SlotOf(gap: int, t: int): Slot { Slot("", Wrap(Win(t, t + gap))) }

  predicate Meet(gap: int, t: int, u: int) {
    SlotOf(gap, t).win.Overlaps(Win(u, u + gap)) || SlotOf(gap, t) == SlotOf(gap, u)
  }

  /** The state behind a first record. */
  function OneOpen(l: Slot, r: Rec): State { State(map[l := [Kept(r)]], ZERO_TIME, [], [r]) }

  /** The state behind two records that share a session. */
  function OneShared(k: Slot, a: Rec, b: Rec): State { State(map[k := [Kept(a), Kept(b)]], ZERO_TIME, [], [a, b]) }

  lemma FirstRecord(gap: int, lateness: nat, r: Rec, l: Slot)
    requires r.n == 0 && l == Slot(r.key, Wrap(Win(r.ts, r.ts + gap)))
    ensures Step(Sessions(gap), lateness, Init(), Record(r, [])) == Some(OneOpen(l, r))
  {
    OpensSession(gap, lateness, Init(), r, l, [Kept(r)], OneOpen(l, r));
  }

  lemma SecondJoins(gap: int, lateness: nat, a: Rec, b: Rec, l: Slot, k: Slot)
    requires b.n == 1 && b.key == l.key && l.win.Overlaps(Win(b.ts, b.ts + gap))
    requires k == Slot(b.key, Wrap(Hull([l], Win(b.ts, b.ts + gap))))
    ensures Step(Sessions(gap), lateness, OneOpen(l, a), Record(b, [l])) == Some(OneShared(k, a, b))
  {
    assert [Kept(a)] + [Kept(b)] == [Kept(a), Kept(b)];
    JoinsSession(gap, lateness, OneOpen(l, a), b, l, [Kept(a)], k, OneShared(k, a, b));
  }

  lemma SecondSame(gap: int, lateness: nat, a: Rec, b: Rec, l: Slot)
    requires b.n == 1 && l == Slot(b.key, Wrap(Win(b.ts, b.ts + gap))) && !l.win.Overlaps(Win(b.ts, b.ts + gap))
    ensures Step(Sessions(gap), lateness, OneOpen(l, a), Record(b, [])) == Some(OneShared(l, a, b))
  {
    OpensSession(gap, lateness, OneOpen(l, a), b, l, [Kept(a), Kept(b)], OneShared(l, a, b));
  }

  /** Two records that overlap a stored session, or are stored under one key, share a session. */
  lemma MeetRun(gap: int, lateness: nat, t: int, u: int) returns (es: seq<Event>, k: Slot)
    requires Meet(gap, t, u)
    ensures Over(es, iset{t, u}) && Exec(Sessions(gap), lateness, Init(), es) == Some(OneShared(k, FirstOf(t), SecondOf(u)))
  {
    var a, b, l := FirstOf(t), SecondOf(u), SlotOf(gap, t);
    FirstRecord(gap, lateness, a, l);
    var order := [];
    k := l;
    if l.win.Overlaps(Win(u, u + gap)) {
      order := [l];
      k := Slot("", Wrap(Hull([l], Win(u, u + gap))));
      SecondJoins(gap, lateness, a, b, l, k);
    } else {
      SecondSame(gap, lateness, a, b, l);
    }
    es := [Record(a, []), Record(b, order)];
    TwoSteps(Sessions(gap), lateness, es[0], OneOpen(l, a), es[1], OneShared(k, a, b));
  }

  /** Otherwise they have a session each. */
  lemma PartRun(gap: int, lateness: nat, t: int, u: int) returns (es: seq<Event>)
    requires !Meet(gap, t, u)
    ensures Over(es, iset{t, u})
    ensures Exec(Sessions(gap), lateness, Init(), es)
         == Some(State(map[SlotOf(gap, t) := [Kept(FirstOf(t))], SlotOf(gap, u) := [Kept(SecondOf(u))]], ZERO_TIME, [], [FirstOf(t), SecondOf(u)]))
  {
    var r0, r1, l, k := FirstOf(t), SecondOf(u), SlotOf(gap, t), SlotOf(gap, u);
    var s1 := OneOpen(l, r0);
    var s2 := State(map[l := [Kept(r0)], k := [Kept(r1)]], ZERO_TIME, [], [r0, r1]);
    FirstRecord(gap, lateness, r0, l);
    OpensSession(gap, lateness, s1, r1, k, [Kept(r1)], s2);
    TwoSteps(Sessions(gap), lateness, Record(r0, []), s1, Record(r1, []), s2);
    es := [Record(r0, []), Record(r1, [])];
  }

  lemma NotConnected(gap: int, a: Rec, b: Rec)
    requires a != b && !Near(gap, a, b)
    ensures !Connected(gap, [a, b], a, b)
  {
    forall path ensures !Path(gap, [a, b], a, b, path) {
      if Path(gap, [a, b], a, b, path) {
        StaysAt(gap, a, b, path, |path| - 1);
      }
    }
  }

  lemma {:induction false} StaysAt(gap: int, a: Rec, b: Rec, path: seq<Rec>, i: nat)
    requires !Near(gap, a, b) && Path(gap, [a, b], a, b, path) && i < |path|
    ensures path[i] == a
  {
    if i > 0 {
      StaysAt(gap, a, b, path, i - 1);
      assert Near(gap, path[i - 1], path[i]);
      assert path[i] in [a, b];
    }
  }

  /** Records further apart than the gap that share a session. */
  lemma TogetherRefutes(gap: int, times: iset<int>, lateness: nat, es: seq<Event>, k: Slot, a: Rec, b: Rec)
    requires a.n != b.n && a.key == b.key && !Near(gap, a, b) && Over(es, times)
    requires Exec(Sessions(gap), lateness, Init(), es) == Some(OneShared(k, a, b))
    ensures !AlwaysComponents(gap, times, lateness)
  {
    var s := OneShared(k, a, b);
    assert Lists([k], s.open.Keys);
    var t := Flush(s, [k]).value;
    assert t.fired[0] == Fired(k, [Kept(a), Kept(b)]);
    assert Kept(a) in t.fired[0].recs && Kept(b) in t.fired[0].recs;
    assert Together(t.fired, Kept(a), Kept(b));
    NotConnected(gap, a, b);
    assert a in t.accepted && b in t.accepted;
    Refutes(gap, times, lateness, es, s, [k]);
  }

  lemma MeetRefutes(gap: int, times: iset<int>, lateness: nat, t: int, u: int)
    requires t in times && u in times && Meet(gap, t, u) && Far(gap, t, u)
    ensures !AlwaysComponents(gap, times, lateness)
  {
    var es, k := MeetRun(gap, lateness, t, u);
    TogetherRefutes(gap, times, lateness, es, k, FirstOf(t), SecondOf(u));
  }

  /** Sessions that overlap, or records within the gap in two sessions. */
  lemma PartRefutes(gap: int, times: iset<int>, lateness: nat, t: int, u: int)
    requires t in times && u in times && !Meet(gap, t, u)
    requires !Far(gap, t, u) || !Disjoint(SlotOf(gap, t).win, SlotOf(gap, u).win)
    ensures !AlwaysComponents(gap, times, lateness)
  {
    var es := PartRun(gap, lateness, t, u);
    var r0, r1, l, k := FirstOf(t), SecondOf(u), SlotOf(gap, t), SlotOf(gap, u);
    var s := State(map[l := [Kept(r0)], k := [Kept(r1)]], ZERO_TIME, [], [r0, r1]);
    TwoSessions(gap, s, l, k, r0, r1);
    Refutes(gap, times, lateness, es, s, [l, k]);
  }

  lemma TwoSessions(gap: int, s: State, l: Slot, k: Slot, a: Rec, b: Rec)
    requires l != k && l.key == k.key && s.open == map[l := [Kept(a)], k := [Kept(b)]] && s.fired == [] && s.accepted == [a, b]
    requires a.n != b.n && a.key == b.key && (Near(gap, a, b) || !Disjoint(l.win, k.win))
    ensures Flush(s, [l, k]).Some? && !Clustered(gap, Flush(s, [l, k]).value)
  {
    assert Lists([l, k], s.open.Keys);
    var t := Flush(s, [l, k]).value;
    assert t.fired == [Fired(l, [Kept(a)]), Fired(k, [Kept(b)])];
    if Near(gap, a, b) {
      NearApart(gap, t, l, k, a, b);
    } else {
      assert Disjoint(t.fired[0].slot.win, t.fired[1].slot.win) == Disjoint(l.win, k.win);
    }
  }

  lemma NearApart(gap: int, t: State, l: Slot, k: Slot, a: Rec, b: Rec)
    requires t.fired == [Fired(l, [Kept(a)]), Fired(k, [Kept(b)])] && t.accepted == [a, b]
    requires a.n != b.n && a.key == b.key && Near(gap, a, b)
    ensures !Clustered(gap, t)
  {
    assert !Together(t.fired, Kept(a), Kept(b));
    assert a in t.accepted && b in t.accepted;
    assert Path(gap, t.accepted, a, b, [a, b]);
  }

  /** A session of one record whose stored bounds wrap around. */
  lemma TornSession(gap: int, times: iset<int>, lateness: nat, t: int)
    requires gap > 0 && t in times && !Fits(UnixNano(t) + gap)
    ensures !AlwaysComponents(gap, times, lateness)
  {
    var r, k := FirstOf(t), SlotOf(gap, t);
    var s := OneOpen(k, r);
    FirstRecord(gap, lateness, r, k);
    Extend(Sessions(gap), lateness, [], Init(), Record(r, []), s);
    assert [] + [Record(r, [])] == [Record(r, [])];
    assert Lists([k], s.open.Keys);
    var end := Flush(s, [k]).value;
    assert end.fired[0] == Fired(k, [Kept(r)]);
    assert !Cluster(gap, k, [Kept(r)]);
    Refutes(gap, times, lateness, [Record(r, [])], s, [k]);
  }

  /** A session stored with an end no later than its record fires before the next record of the same instant. */
  lemma WrappedRun(gap: int, lateness: nat, t: int, k: Slot, r0: Rec, r1: Rec) returns (es: seq<Event>, wm: int)
    requires UnixNano(t + gap) <= t && k == SlotOf(gap, t) && r0 == FirstOf(t) && r1 == SecondOf(t)
    ensures Over(es, iset{t})
    ensures Exec(Sessions(gap), lateness, Init(), es) == Some(State(map[k := [Kept(r1)]], wm, [Fired(k, [Kept(r0)])], [r0, r1]))
  {
    wm := k.win.end + lateness;
    var s2 := State(map[], wm, [Fired(k, [Kept(r0)])], [r0]);
    var s3 := State(map[k := [Kept(r1)]], wm, [Fired(k, [Kept(r0)])], [r0, r1]);
    FirstRecord(gap, lateness, r0, k);
    FiresOnly(gap, lateness, OneOpen(k, r0), k, Kept(r0), wm, s2);
    OpensSession(gap, lateness, s2, r1, k, [Kept(r1)], s3);
    es := [Record(r0, []), Watermark(wm, [k]), Record(r1, [])];
    ThreeSteps(Sessions(gap), lateness, es[0], OneOpen(k, r0), es[1], s2, es[2], s3);
  }

  lemma WrappedSession(gap: int, times: iset<int>, lateness: nat, t: int)
    requires gap > 0 && t in times && UnixNano(t + gap) <= t
    ensures !AlwaysComponents(gap, times, lateness)
  {
    var es, wm := WrappedRun(gap, lateness, t, SlotOf(gap, t), FirstOf(t), SecondOf(t));
    ApartRefutes(gap, times, lateness, es, SlotOf(gap, t), wm, FirstOf(t), SecondOf(t));
  }

  lemma ApartRefutes(gap: int, times: iset<int>, lateness: nat, es: seq<Event>, k: Slot, wm: int, r0: Rec, r1: Rec)
    requires gap > 0 && r0.n != r1.n && r0.key == r1.key && r0.ts == r1.ts && Over(es, times)
    requires Exec(Sessions(gap), lateness, Init(), es) == Some(State(map[k := [Kept(r1)]], wm, [Fired(k, [Kept(r0)])], [r0, r1]))
    ensures !AlwaysComponents(gap, times, lateness)
  {
    var s := State(map[k := [Kept(r1)]], wm, [Fired(k, [Kept(r0)])], [r0, r1]);
    TwoApart(gap, s, k, r0, r1);
    Refutes(gap, times, lateness, es, s, [k]);
  }

  lemma FiresOnly(gap: int, lateness: nat, s: State, k: Slot, q: Rec, wm: int, s': State)
    requires s.open == map[k := [q]] && s.wm < wm && k.win.end + lateness <= wm
    requires s' == s.(open := map[], wm := wm, fired := s.fired + [Fired(k, [q])])
    ensures Step(Sessions(gap), lateness, s, Watermark(wm, [k])) == Some(s')
  {
    var s1 := s.(wm := wm);
    assert Lists([k], Due(s.open, wm, lateness));
    assert Close(s1, [k]).fired == s1.fired + [Fired(k, [q])];
    assert s1.open - Keys([k]) == map[];
  }

  lemma TwoApart(gap: int, s: State, k: Slot, r0: Rec, r1: Rec)
    requires gap > 0 && s.open == map[k := [Kept(r1)]] && s.fired == [Fired(k, [Kept(r0)])] && s.accepted == [r0, r1]
    requires r0.n != r1.n && r0.key == r1.key && r0.ts == r1.ts
    ensures Flush(s, [k]).Some? && !Clustered(gap, Flush(s, [k]).value)
  {
    assert Lists([k], s.open.Keys);
    var t := Flush(s, [k]).value;
    assert t.fired == [Fired(k, [Kept(r0)]), Fired(k, [Kept(r1)])];
    NearApart(gap, t, k, k, r0, r1);
  }

  /**
    Over any set of event times, sessions equal the offline clustering if and only if the gap is
    positive and every time keeps its place.
   */
  lemma SessionsIff(gap: int, times: iset<int>, lateness: nat)
    requires gap <= MAX_NANOS
    ensures AlwaysComponents(gap, times, lateness) <==> forall t :: t in times ==> gap > 0 && PlacedAt(gap, times, t)
  {
    if t :| t in times && !(gap > 0 && PlacedAt(gap, times, t)) {
      if gap <= 0 {
        NoGap(gap, times, lateness, t);
      } else {
        Misplaced(gap, times, lateness, t);
      }
    } else {
      forall es, order | Over(es, times) && Exec(Sessions(gap), lateness, Init(), es).Some?
        && Flush(Exec(Sessions(gap), lateness, Init(), es).value, order).Some?
        ensures Clustered(gap, Flush(Exec(Sessions(gap), lateness, Init(), es).value, order).value) {
        PositiveOrEmpty(gap, times, lateness, es, order);
      }
    }
  }

  /** For times within the int64 range: the gap is positive and no session of one record ends beyond it. */
  lemma PlainSessionsIff(gap: int, times: iset<int>, lateness: nat)
    requires gap <= MAX_NANOS && forall t :: t in times ==> Fits(t)
    ensures AlwaysComponents(gap, times, lateness) <==> forall t :: t in times ==> gap > 0 && Fits(t + gap)
  {
    SessionsIff(gap, times, lateness);
    if forall t :: t in times ==> gap > 0 && PlacedAt(gap, times, t) {
      forall t | t in times ensures gap > 0 && Fits(t + gap) {
        assert PlacedAt(gap, times, t);
      }
    }
    if forall t :: t in times ==> gap > 0 && Fits(t + gap) {
      forall t | t in times ensures gap > 0 && PlacedAt(gap, times, t) {
      }
    }
  }

  /** Without a positive gap two records of one instant share a window although nothing is within the gap. */
  lemma NoGap(gap: int, times: iset<int>, lateness: nat, t: int)
    requires gap <= 0 && t in times
    ensures !AlwaysComponents(gap, times, lateness)
  {
    MeetRefutes(gap, times, lateness, t, t);
  }

  lemma Misplaced(gap: int, times: iset<int>, lateness: nat, t: int)
    requires 0 < gap <= MAX_NANOS && t in times && !PlacedAt(gap, times, t)
    ensures !AlwaysComponents(gap, times, lateness)
  {
    if t >= MIN_NANOS {
      EndsEarly(gap, t);
      WrappedSession(gap, times, lateness, t);
    } else if !Fits(UnixNano(t) + gap) {
      TornSession(gap, times, lateness, t);
    } else {
      var u :| u in times && u != t && !(Far(gap, t, u) && Far(gap, UnixNano(t), UnixNano(u)));
      NotAlone(gap, times, lateness, t, u);
    }
  }

  lemma EndsEarly(gap: int, t: int)
    requires 0 < gap <= MAX_NANOS && t >= MIN_NANOS && (t > MAX_NANOS || !Fits(UnixNano(t) + gap))
    ensures UnixNano(t + gap) <= t
  {
    if t <= MAX_NANOS {
      WrapsOnce(t + gap);
    }
  }

  lemma NotAlone(gap: int, times: iset<int>, lateness: nat, t: int, u: int)
    requires 0 < gap <= MAX_NANOS && t in times && u in times && t < MIN_NANOS && Fits(UnixNano(t) + gap)
    requires u != t && !(Far(gap, t, u) && Far(gap, UnixNano(t), UnixNano(u)))
    ensures !AlwaysComponents(gap, times, lateness)
  {
    if u > MAX_NANOS {
      EndsEarly(gap, u);
      WrappedSession(gap, times, lateness, u);
    } else if !Fits(UnixNano(u) + gap) {
      TornSession(gap, times, lateness, u);
    } else if Meet(gap, t, u) {
      MeetFar(gap, t, u);
      MeetRefutes(gap, times, lateness, t, u);
    } else {
      StoredWin(t, gap);
      StoredWin(u, gap);
      PartRefutes(gap, times, lateness, t, u);
    }
  }

  /** What meets the stored session of a time before the int64 range is not within the gap of that time. */
  lemma MeetFar(gap: int, t: int, u: int)
    requires 0 < gap <= MAX_NANOS && t < MIN_NANOS && u != t && Fits(UnixNano(t) + gap) && Meet(gap, t, u)
    ensures Far(gap, t, u)
  {
    StoredFarAbove(t);
    if UnixNano(t) == UnixNano(u) {
      SameStored(t, u);
    }
  }

  lemma StoredFarAbove(t: int)
    requires t < MIN_NANOS
    ensures UnixNano(t) >= t + 0x1_0000_0000_0000_0000
  {
    var turns := (t - MIN_NANOS) / 0x1_0000_0000_0000_0000;
    assert UnixNano(t) == t - turns * 0x1_0000_0000_0000_0000;
    assert turns <= -1;
  }

  lemma SameStored(t: int, u: int)
    requires UnixNano(t) == UnixNano(u) && t != u
    ensures t - u >= 0x1_0000_0000_0000_0000 || u - t >= 0x1_0000_0000_0000_0000
  {
    var a, b := (t - MIN_NANOS) / 0x1_0000_0000_0000_0000, (u - MIN_NANOS) / 0x1_0000_0000_0000_0000;
    assert t - u == (a - b) * 0x1_0000_0000_0000_0000;
  }

  lemma PositiveOrEmpty(gap: int, times: iset<int>, lateness: nat, es: seq<Event>, order: seq<Slot>)
    requires forall t :: t in times ==> gap > 0 && PlacedAt(gap, times, t)
    requires Over(es, times) && Exec(Sessions(gap), lateness, Init(), es).Some?
    requires Flush(Exec(Sessions(gap), lateness, Init(), es).value, order).Some?
    ensures Clustered(gap, Flush(Exec(Sessions(gap), lateness, Init(), es).value, order).value)
  {
    if gap > 0 {
      SessionsAreComponents(gap, times, lateness, es, order);
    } else {
      NoRecords(gap, lateness, es);
      NothingClustered(gap, Exec(Sessions(gap), lateness, Init(), es).value, order);
    }
  }

  lemma NothingClustered(gap: int, s: State, order: seq<Slot>)
    requires s.open == map[] && s.fired == [] && s.accepted == [] && Flush(s, order).Some?
    ensures Clustered(gap, Flush(s, order).value)
  {
    assert order == [];
    assert Flush(s, order).value.fired == [];
  }

  lemma {:induction false} NoRecords(gap: int, lateness: nat, es: seq<Event>)
    requires Over(es, iset{}) && Exec(Sessions(gap), lateness, Init(), es).Some?
    ensures var s := Exec(Sessions(gap), lateness, Init(), es).value; s.open == map[] && s.fired == [] && s.accepted == []
  {
    if es != [] {
      NoRecords(gap, lateness, es[..|es| - 1]);
      var e := es[|es| - 1];
      var s := Exec(Sessions(gap), lateness, Init(), es[..|es| - 1]).value;
      assert e.order == [] by {
        assert Due(s.open, if e.t > s.wm then e.t else s.wm, lateness) == {};
      }
    }
  }
}
