/** What complete runs of the window operator emit. */
module WindowResults {
  // The results of complete runs in terms of the accepted records alone: for event times within the
  // int64 range stored copies are the records themselves.

  import opened Prelude
  import opened WindowAssign
  import opened Windows
  import FW = FixedWindows
  import SW = SessionWindows
  import SR = SessionRuns

  ghost predicate AllFit(times: iset<int>) { forall t :: t in times ==> Fits(t) }

  lemma {:induction false} AcceptedTimes(a: Assigner, times: iset<int>, lateness: nat, es: seq<Event>)
    requires Over(es, times) && Exec(a, lateness, Init(), es).Some?
    ensures forall r :: r in Exec(a, lateness, Init(), es).value.accepted ==> r.ts in times
  {
    if es != [] {
      AcceptedTimes(a, times, lateness, es[..|es| - 1]);
    }
  }

  // ---- Fixed windows --------------------------------------------------------------------------

  /** How many of the windows `wins` are stored with the bounds of `w`. */
  function Hits(wins: seq<Win>, w: Win): nat {
    if wins == [] then 0
    else (if UnixNano(wins[0].start) == w.start && UnixNano(wins[0].end) == w.end then 1 else 0) + Hits(wins[1..], w)
  }

  function Repeated(r: Rec, n: nat): (rs: seq<Rec>)
    ensures |rs| == n && forall i :: 0 <= i < n ==> rs[i] == r
  {
    seq(n, _ => r)
  }

  /** The records of `rs` that belong to window `k`, in order, each once for every window of its own stored there. */
  function Belonging(assign: int -> seq<Win>, rs: seq<Rec>, k: Slot): seq<Rec> {
    if rs == [] then []
    else (if rs[0].key == k.key then Repeated(rs[0], Hits(assign(rs[0].ts), k.win)) else []) + Belonging(assign, rs[1..], k)
  }

  lemma {:induction false} HitsAppend(wins: seq<Win>, x: Win, w: Win)
    ensures Hits(wins + [x], w) == Hits(wins, w) + if UnixNano(x.start) == w.start && UnixNano(x.end) == w.end then 1 else 0
  {
    if wins == [] {
      assert wins + [x] == [x] && [x][1..] == [];
    } else {
      assert (wins + [x])[1..] == wins[1..] + [x];
      HitsAppend(wins[1..], x, w);
    }
  }

  lemma {:induction false} CopiesAreHits(wins: seq<Win>, w: Win, r: Rec)
    ensures FW.Copies(WrapAll(wins), w, r) == Repeated(r, Hits(wins, w))
  {
    if wins != [] {
      var rest, x := wins[..|wins| - 1], wins[|wins| - 1];
      assert wins == rest + [x];
      CopiesAreHits(rest, w, r);
      HitsAppend(rest, x, w);
      assert WrapAll(wins)[..|wins| - 1] == WrapAll(rest);
    }
  }

  lemma {:induction false} BelongingAppend(assign: int -> seq<Win>, rs: seq<Rec>, r: Rec, k: Slot)
    ensures Belonging(assign, rs + [r], k) == Belonging(assign, rs, k) + if r.key == k.key then Repeated(r, Hits(assign(r.ts), k.win)) else []
  {
    if rs == [] {
      assert rs + [r] == [r] && [r][1..] == [];
    } else {
      assert (rs + [r])[1..] == rs[1..] + [r];
      BelongingAppend(assign, rs[1..], r, k);
      Assoc(if rs[0].key == k.key then Repeated(rs[0], Hits(assign(rs[0].ts), k.win)) else [],
            Belonging(assign, rs[1..], k), if r.key == k.key then Repeated(r, Hits(assign(r.ts), k.win)) else []);
    }
  }

  lemma {:induction false} AssignedBelong(assign: int -> seq<Win>, rs: seq<Rec>, k: Slot)
    requires forall r :: r in rs ==> Fits(r.ts)
    ensures FW.Assigned(assign, rs, k) == Belonging(assign, rs, k)
  {
    if rs != [] {
      var rest, r := rs[..|rs| - 1], rs[|rs| - 1];
      assert rs == rest + [r] && r in rs;
      AssignedBelong(assign, rest, k);
      BelongingAppend(assign, rest, r, k);
      CopiesAreHits(assign(r.ts), k.win, r);
    }
  }

  /** Each window that some accepted record belongs to has fired once, with exactly the accepted records that belong to it. */
  ghost predicate Holds(assign: int -> seq<Win>, s: State) {
    && FW.Once(s.fired)
    && (forall i :: 0 <= i < |s.fired| ==> s.fired[i].recs == Belonging(assign, s.accepted, s.fired[i].slot) != [])
    && (forall k :: Belonging(assign, s.accepted, k) != [] ==> FW.HasFired(s.fired, k))
  }

  /** A complete run over int64 times whose windows, as stored, end after them. */
  ghost predicate FixedRun(assign: int -> seq<Win>, times: iset<int>, lateness: nat, es: seq<Event>, order: seq<Slot>, s: State) {
    && AllFit(times) && FW.EndsAfter(assign, times) && Over(es, times) && Exec(Fixed(assign), lateness, Init(), es).Some?
    && Flush(Exec(Fixed(assign), lateness, Init(), es).value, order) == Some(s)
  }

  lemma FixedWindowsHold(assign: int -> seq<Win>, times: iset<int>, lateness: nat, es: seq<Event>, order: seq<Slot>, s: State)
    requires FixedRun(assign, times, lateness, es, order, s)
    ensures Holds(assign, s)
  {
    FW.FixedWindowsConserve(assign, times, lateness, es, order);
    AcceptedTimes(Fixed(assign), times, lateness, es);
    forall k ensures FW.Assigned(assign, s.accepted, k) == Belonging(assign, s.accepted, k) {
      AssignedBelong(assign, s.accepted, k);
    }
  }

  // ---- What comes out --------------------------------------------------------------------------

  /** The aggregate of the records `rs` of window `k`: their left fold, with the last one's time. */
  function Aggregate(f: Reducer, k: Slot, rs: seq<Rec>): Emission
    requires rs != []
  {
    Emission(k.key, Foldl(f, None, rs).GetOr([]), rs[|rs| - 1].ts, k.win)
  }

  /** A window with records, all of its key. */
  ghost predicate Filled(x: Fired) {
    x.recs != [] && forall r :: r in x.recs ==> r.key == x.slot.key
  }

  lemma OneEmitted(f: Reducer, x: Fired)
    requires Filled(x)
    ensures Emit(Some(f), x) == [Aggregate(f, x.slot, x.recs)]
  {
    FoldIsFoldl(f, x.recs);
    assert x.recs[|x.recs| - 1] in x.recs;
  }

  ghost predicate AllFilled(fs: seq<Fired>) {
    forall i :: 0 <= i < |fs| ==> Filled(fs[i])
  }

  ghost function Aggregates(f: Reducer, fs: seq<Fired>): (es: seq<Emission>)
    requires AllFilled(fs)
    ensures |es| == |fs| && forall i :: 0 <= i < |fs| ==> es[i] == Aggregate(f, fs[i].slot, fs[i].recs)
  {
    seq(|fs|, i requires 0 <= i < |fs| => assert Filled(fs[i]); Aggregate(f, fs[i].slot, fs[i].recs))
  }

  lemma {:induction false} OnePerWindow(f: Reducer, fs: seq<Fired>)
    requires AllFilled(fs)
    ensures EmitAll(Some(f), fs) == Aggregates(f, fs)
  {
    if fs != [] {
      var rest, x := fs[..|fs| - 1], fs[|fs| - 1];
      assert AllFilled(rest) && Filled(x);
      OnePerWindow(f, rest);
      OneEmitted(f, x);
      assert Aggregates(f, fs) == Aggregates(f, rest) + [Aggregate(f, x.slot, x.recs)];
    }
  }

  lemma {:induction false} BelongingKeys(assign: int -> seq<Win>, rs: seq<Rec>, k: Slot)
    ensures forall r :: r in Belonging(assign, rs, k) ==> r.key == k.key && r in rs
  {
    if rs != [] {
      BelongingKeys(assign, rs[1..], k);
    }
  }

  /** With a reducer a complete run emits one aggregate for each fired window: the fold of its accepted records in arrival order. */
  lemma FixedAggregates(assign: int -> seq<Win>, times: iset<int>, lateness: nat, es: seq<Event>, order: seq<Slot>, s: State, f: Reducer)
    requires FixedRun(assign, times, lateness, es, order, s)
    ensures Holds(assign, s) && |EmitAll(Some(f), s.fired)| == |s.fired|
    ensures forall i :: 0 <= i < |s.fired| ==>
              EmitAll(Some(f), s.fired)[i] == Aggregate(f, s.fired[i].slot, Belonging(assign, s.accepted, s.fired[i].slot))
  {
    FixedWindowsHold(assign, times, lateness, es, order, s);
    forall i | 0 <= i < |s.fired| ensures Filled(s.fired[i]) {
      BelongingKeys(assign, s.accepted, s.fired[i].slot);
    }
    OnePerWindow(f, s.fired);
  }

  /** The records of `fs`, window by window, each as it came, tagged with its window. */
  function Listed(fs: seq<Fired>): seq<Emission> {
    if fs == [] then []
    else
      var x := fs[0];
      seq(|x.recs|, i requires 0 <= i < |x.recs| => Emission(x.recs[i].key, x.recs[i].value, x.recs[i].ts, x.slot.win)) + Listed(fs[1..])
  }

  lemma {:induction false} ListedAppend(fs: seq<Fired>, x: Fired)
    ensures Listed(fs + [x]) == Listed(fs) + Listed([x])
  {
    if fs == [] {
      assert fs + [x] == [x];
    } else {
      assert (fs + [x])[1..] == fs[1..] + [x];
      ListedAppend(fs[1..], x);
    }
  }

  /** Without a reducer every record of every fired window comes out, in order. */
  lemma {:induction false} AllListed(fs: seq<Fired>)
    ensures EmitAll(None, fs) == Listed(fs)
  {
    if fs != [] {
      var rest, x := fs[..|fs| - 1], fs[|fs| - 1];
      assert fs == rest + [x];
      AllListed(rest);
      ListedAppend(rest, x);
      assert Listed([x]) == Emit(None, x) by { assert [x][1..] == []; }
    }
  }

  // ---- Sessions ----------------------------------------------------------------------------------

  /** A complete run over int64 times that keep their place. */
  ghost predicate SessionRun(gap: int, times: iset<int>, lateness: nat, es: seq<Event>, order: seq<Slot>, s: State) {
    && gap > 0 && AllFit(times) && SR.Places(gap, times) && Over(es, times) && Exec(Sessions(gap), lateness, Init(), es).Some?
    && Flush(Exec(Sessions(gap), lateness, Init(), es).value, order) == Some(s)
  }

  lemma KeptThemselves(rs: seq<Rec>)
    requires forall r :: r in rs ==> Fits(r.ts)
    ensures KeptAll(rs) == rs
  {
    forall i | 0 <= i < |rs| ensures KeptAll(rs)[i] == rs[i] {
      assert rs[i] in rs;
    }
  }

  /** The fired sessions are the gap-connected components of the accepted records themselves. */
  lemma SessionsHold(gap: int, times: iset<int>, lateness: nat, es: seq<Event>, order: seq<Slot>, s: State)
    requires SessionRun(gap, times, lateness, es, order, s)
    ensures SW.Components(gap, s.accepted, s.fired)
  {
    SR.SessionsAreComponents(gap, times, lateness, es, order);
    AcceptedTimes(Sessions(gap), times, lateness, es);
    KeptThemselves(s.accepted);
    forall a, b | a in s.accepted && b in s.accepted && a.key == b.key
      ensures SW.Together(s.fired, a, b) <==> SW.Connected(gap, s.accepted, a, b) {
      assert Kept(a) == a && Kept(b) == b;
    }
  }

  /** With a reducer a complete run emits one aggregate for each component. */
  lemma SessionAggregates(gap: int, times: iset<int>, lateness: nat, es: seq<Event>, order: seq<Slot>, s: State, f: Reducer)
    requires SessionRun(gap, times, lateness, es, order, s)
    ensures SW.Components(gap, s.accepted, s.fired) && |EmitAll(Some(f), s.fired)| == |s.fired|
    ensures AllFilled(s.fired) && EmitAll(Some(f), s.fired) == Aggregates(f, s.fired)
  {
    SessionsHold(gap, times, lateness, es, order, s);
    PartsFilled(gap, s.accepted, s.fired);
    OnePerWindow(f, s.fired);
  }

  lemma ClusterFilled(gap: int, x: Fired)
    requires SW.Cluster(gap, x.slot, x.recs)
    ensures Filled(x)
  {
    var q := SW.PartEnd(gap, x.slot, x.recs, true);
  }

  lemma PartsFilled(gap: int, rs: seq<Rec>, fired: seq<Fired>)
    requires SW.Partition(gap, rs, fired)
    ensures AllFilled(fired)
  {
    forall i | 0 <= i < |fired| ensures Filled(fired[i]) {
      ClusterFilled(gap, fired[i]);
    }
  }

  // ---- The order of a session's records ----------------------------------------------------------

  ghost predicate Rising(rs: seq<Rec>, n: nat) {
    && (forall i :: 0 <= i < |rs| ==> rs[i].n < n)
    && (forall i, j :: 0 <= i < j < |rs| ==> rs[i].n < rs[j].n)
  }

  ghost predicate AllRising(s: State) {
    && (forall k :: k in s.open ==> Rising(s.open[k], |s.accepted|))
    && (forall i :: 0 <= i < |s.fired| ==> Rising(s.fired[i].recs, |s.accepted|))
  }

  /** Every record finds at most one session to join. */
  ghost predicate NeverMerged(es: seq<Event>) {
    forall i :: 0 <= i < |es| && es[i].Record? ==> |es[i].order| <= 1
  }

  lemma OneGathered(open: map<Slot, seq<Rec>>, order: seq<Slot>)
    requires |order| <= 1
    ensures Gather(open, order) == if order == [] then [] else Get(open, order[0])
  {
    if order != [] {
      assert order[..0] == [];
    }
  }

  lemma JoinRising(gap: int, s: State, r: Rec, order: seq<Slot>, s': State)
    requires AllRising(s) && |order| <= 1 && (order != [] ==> order[0] in s.open) && r.n == |s.accepted|
    requires s' == s.(open := SR.Rejoined(gap, s.open, r, order), accepted := s.accepted + [r])
    ensures AllRising(s')
  {
    var k := SW.Joined(gap, r, order);
    OneGathered(s.open, order);
    OneMoreRising(if order == [] then [] else s.open[order[0]], r, |s.accepted|);
    forall l | l in s'.open ensures Rising(s'.open[l], |s'.accepted|) {
      if l != k {
        assert l in s.open && s'.open[l] == s.open[l];
      }
    }
  }

  lemma OneMoreRising(rs: seq<Rec>, r: Rec, n: nat)
    requires Rising(rs, n) && r.n == n
    ensures Rising(rs + [r], n + 1)
  {
  }

  lemma RecordRising(gap: int, times: iset<int>, lateness: nat, s: State, r: Rec, order: seq<Slot>, s': State)
    requires gap > 0 && SR.Places(gap, times) && SW.OpenOk(gap, s) && SW.AllHeld(times, s) && AllRising(s)
    requires r.ts in times && Fits(r.ts) && |order| <= 1 && SR.Handled(gap, lateness, s, r, order, s')
    ensures AllRising(s')
  {
    if !TooLate(lateness, s.wm, r.ts) {
      SR.PlainJoin(gap, times, s, r, order);
      JoinRising(gap, s, r, order, s');
    }
  }

  lemma WatermarkRising(a: Assigner, lateness: nat, s: State, e: Event, s': State)
    requires AllRising(s) && e.Watermark? && Step(a, lateness, s, e) == Some(s')
    ensures AllRising(s')
  {
    ClosedRising(s.(wm := if e.t > s.wm then e.t else s.wm), e.order);
  }

  lemma ClosedRising(s: State, order: seq<Slot>)
    requires AllRising(s) && forall i :: 0 <= i < |order| ==> order[i] in s.open
    ensures AllRising(Close(s, order))
  {
    var s' := Close(s, order);
    forall i | 0 <= i < |s'.fired| ensures Rising(s'.fired[i].recs, |s'.accepted|) {
      SW.CloseFrom(s, order, i);
    }
  }

  lemma {:induction false} ExecRising(gap: int, times: iset<int>, lateness: nat, es: seq<Event>)
    requires gap > 0 && AllFit(times) && SR.Places(gap, times) && Over(es, times) && NeverMerged(es)
    requires Exec(Sessions(gap), lateness, Init(), es).Some?
    ensures AllRising(Exec(Sessions(gap), lateness, Init(), es).value)
  {
    if es != [] {
      var n := |es| - 1;
      var s := Exec(Sessions(gap), lateness, Init(), es[..n]).value;
      ExecRising(gap, times, lateness, es[..n]);
      SR.ExecKeeps(gap, times, lateness, es[..n]);
      var s' := Exec(Sessions(gap), lateness, Init(), es).value;
      if es[n].Record? {
        SR.RecordStep(gap, lateness, s, es[n], s');
        RecordRising(gap, times, lateness, s, es[n].r, es[n].order, s');
      } else {
        WatermarkRising(Sessions(gap), lateness, s, es[n], s');
      }
    }
  }

  /** If no record joins two sessions, every session lists its records in the order of their arrival. */
  lemma SessionsInOrder(gap: int, times: iset<int>, lateness: nat, es: seq<Event>, order: seq<Slot>, s: State)
    requires SessionRun(gap, times, lateness, es, order, s) && NeverMerged(es)
    ensures forall i :: 0 <= i < |s.fired| ==> Rising(s.fired[i].recs, |s.accepted|)
  {
    ExecRising(gap, times, lateness, es);
    ClosedRising(Exec(Sessions(gap), lateness, Init(), es).value, order);
  }
}
