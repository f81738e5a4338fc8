/** Fixed windows fire once and conserve records. */
module FixedWindows {
  import opened Prelude
  import opened WindowAssign
  import opened Windows

  /** The copies of `r` that its windows `wins` put into window `w`. */
  function Copies(wins: seq<Win>, w: Win, r: Rec): seq<Rec> {
    if wins == [] then [] else Copies(wins[..|wins| - 1], w, r) + if wins[|wins| - 1] == w then [r] else []
  }

  /** The reference: the records of `rs` assigned to slot `k`, in arrival order. */
  function Assigned(assign: int -> seq<Win>, rs: seq<Rec>, k: Slot): seq<Rec> {
    if rs == [] then []
    else
      var r := rs[|rs| - 1];
      Assigned(assign, rs[..|rs| - 1], k) + Added(assign, r, k)
  }

  /** What record `r` adds to slot `k`: its stored copy, once for each of its windows stored under `k`. */
  function Added(assign: int -> seq<Win>, r: Rec, k: Slot): seq<Rec> {
    if r.key == k.key then Copies(WrapAll(assign(r.ts)), k.win, Kept(r)) else []
  }

  lemma AssignedAppend(assign: int -> seq<Win>, rs: seq<Rec>, r: Rec, k: Slot)
    ensures Assigned(assign, rs + [r], k) == Assigned(assign, rs, k) + Added(assign, r, k)
  {
    assert (rs + [r])[..|rs|] == rs;
  }

  lemma {:induction false} CopiesSome(wins: seq<Win>, w: Win, r: Rec)
    ensures Copies(wins, w, r) != [] <==> w in wins
  {
    if wins != [] {
      CopiesSome(wins[..|wins| - 1], w, r);
    }
  }

  lemma {:induction false} Placed(open: map<Slot, seq<Rec>>, wins: seq<Win>, r: Rec, k: Slot)
    ensures Get(PlaceAll(open, wins, r), k) == Get(open, k) + if r.key == k.key then Copies(wins, k.win, r) else []
    ensures k in PlaceAll(open, wins, r) <==> k in open || (r.key == k.key && k.win in wins)
  {
    if wins != [] {
      var w := wins[|wins| - 1];
      Placed(open, wins[..|wins| - 1], r, k);
      assert wins == wins[..|wins| - 1] + [w];
      if k == Slot(r.key, w) {
        assert Get(open, k) + (Copies(wins[..|wins| - 1], w, r) + [r]) == Get(open, k) + Copies(wins[..|wins| - 1], w, r) + [r];
      }
    }
  }

  /** As it is stored, every window assigned to one of these times ends after it. */
  ghost predicate EndsAfter(assign: int -> seq<Win>, times: iset<int>) {
    forall ts :: ts in times ==> LaterEnds(assign(ts), ts)
  }

  predicate LaterEnds(wins: seq<Win>, ts: int) { forall w :: w in wins ==> UnixNano(w.end) > ts }

  lemma WrappedIn(wins: seq<Win>, k: Win)
    ensures k in WrapAll(wins) <==> exists w :: w in wins && k == Wrap(w)
  {
    if k in WrapAll(wins) {
      var i :| 0 <= i < |wins| && WrapAll(wins)[i] == k;
      assert wins[i] in wins && k == Wrap(wins[i]);
    }
    if w :| w in wins && k == Wrap(w) {
      var i :| 0 <= i < |wins| && wins[i] == w;
      assert WrapAll(wins)[i] == k;
    }
  }

  // ---- The invariant ----------------------------------------------------------------------

  ghost predicate OpenOk(assign: int -> seq<Win>, s: State) {
    forall k :: k in s.open ==> s.open[k] != [] && s.open[k] == Assigned(assign, s.accepted, k)
  }

  /** A fired window was complete: no accepted record belongs to it later on. */
  ghost predicate FiredOk(assign: int -> seq<Win>, lateness: nat, s: State) {
    forall i :: 0 <= i < |s.fired| ==>
      var f := s.fired[i];
      && f.slot !in s.open && f.recs != [] && f.recs == Assigned(assign, s.accepted, f.slot)
      && f.slot.win.end + lateness <= s.wm
  }

  ghost predicate Once(fired: seq<Fired>) {
    forall i, j :: 0 <= i < j < |fired| ==> fired[i].slot != fired[j].slot
  }

  ghost predicate HasFired(fired: seq<Fired>, k: Slot) {
    exists i :: 0 <= i < |fired| && fired[i].slot == k
  }

  ghost predicate Complete(assign: int -> seq<Win>, s: State) {
    forall k :: Assigned(assign, s.accepted, k) != [] ==> k in s.open || HasFired(s.fired, k)
  }

  ghost predicate Inv(assign: int -> seq<Win>, lateness: nat, s: State) {
    && OpenOk(assign, s) && FiredOk(assign, lateness, s) && Once(s.fired) && Complete(assign, s)
    && s.wm >= ZERO_TIME && (s.wm == ZERO_TIME ==> s.fired == [])
    && (forall k :: k in s.open ==> Fits(k.win.end))
  }

  /** An accepted record belongs to no window that has fired. */
  lemma NotFired(assign: int -> seq<Win>, times: iset<int>, lateness: nat, s: State, r: Rec, k: Slot)
    requires EndsAfter(assign, times) && FiredOk(assign, lateness, s) && (s.wm == ZERO_TIME ==> s.fired == [])
    requires r.ts in times && !TooLate(lateness, s.wm, r.ts) && Added(assign, r, k) != []
    ensures !HasFired(s.fired, k) && k.win.end > r.ts && Fits(k.win.end)
  {
    CopiesSome(WrapAll(assign(r.ts)), k.win, Kept(r));
    WrappedIn(assign(r.ts), k.win);
    assert LaterEnds(assign(r.ts), r.ts);
  }

  lemma RecordEffect(assign: int -> seq<Win>, times: iset<int>, lateness: nat, s: State, r: Rec, s': State, k: Slot)
    requires EndsAfter(assign, times) && Inv(assign, lateness, s) && r.ts in times && !TooLate(lateness, s.wm, r.ts)
    requires s' == s.(open := PlaceAll(s.open, WrapAll(assign(r.ts)), Kept(r)), accepted := s.accepted + [r])
    ensures Assigned(assign, s'.accepted, k) == Assigned(assign, s.accepted, k) + Added(assign, r, k)
    ensures k in s'.open <==> k in s.open || Added(assign, r, k) != []
    ensures k in s'.open ==> s'.open[k] == Assigned(assign, s'.accepted, k) && s'.open[k] != [] && Fits(k.win.end)
    ensures HasFired(s.fired, k) ==> Added(assign, r, k) == []
  {
    Placed(s.open, WrapAll(assign(r.ts)), Kept(r), k);
    AssignedAppend(assign, s.accepted, r, k);
    CopiesSome(WrapAll(assign(r.ts)), k.win, Kept(r));
    if Added(assign, r, k) != [] {
      NotFired(assign, times, lateness, s, r, k);
    }
  }

  lemma RecordKeeps(assign: int -> seq<Win>, times: iset<int>, lateness: nat, s: State, r: Rec, s': State)
    requires EndsAfter(assign, times) && Inv(assign, lateness, s) && r.ts in times && !TooLate(lateness, s.wm, r.ts)
    requires s' == s.(open := PlaceAll(s.open, WrapAll(assign(r.ts)), Kept(r)), accepted := s.accepted + [r])
    ensures Inv(assign, lateness, s')
  {
    forall k | k in s'.open ensures s'.open[k] != [] && s'.open[k] == Assigned(assign, s'.accepted, k) && Fits(k.win.end) {
      RecordEffect(assign, times, lateness, s, r, s', k);
    }
    forall i | 0 <= i < |s.fired| ensures s.fired[i].slot !in s'.open && s.fired[i].recs == Assigned(assign, s'.accepted, s.fired[i].slot) {
      assert HasFired(s.fired, s.fired[i].slot);
      RecordEffect(assign, times, lateness, s, r, s', s.fired[i].slot);
    }
    forall k | Assigned(assign, s'.accepted, k) != [] ensures k in s'.open || HasFired(s'.fired, k) {
      RecordEffect(assign, times, lateness, s, r, s', k);
    }
  }

  /** Closing listed open windows moves them, whole, from open to fired. */
  lemma CloseKeeps(assign: int -> seq<Win>, lateness: nat, s: State, order: seq<Slot>)
    requires Inv(assign, lateness, s) && (forall i :: 0 <= i < |order| ==> order[i] in s.open) && NoDup(order)
    ensures var s' := Close(s, order);
            OpenOk(assign, s') && Once(s'.fired) && Complete(assign, s') && s'.wm == s.wm
    ensures forall i :: 0 <= i < |Close(s, order).fired| ==>
              var f := Close(s, order).fired[i];
              f.slot !in Close(s, order).open && f.recs != [] && f.recs == Assigned(assign, s.accepted, f.slot)
  {
    CloseOnce(s, order);
    CloseComplete(assign, s, order);
    forall i | 0 <= i < |Close(s, order).fired|
      ensures var f := Close(s, order).fired[i];
              f.slot !in Close(s, order).open && f.recs != [] && f.recs == Assigned(assign, s.accepted, f.slot)
    {
      CloseWhole(assign, s, order, i);
    }
  }

  lemma CloseOnce(s: State, order: seq<Slot>)
    requires Once(s.fired) && (forall i :: 0 <= i < |s.fired| ==> s.fired[i].slot !in s.open)
    requires (forall i :: 0 <= i < |order| ==> order[i] in s.open) && NoDup(order)
    ensures Once(Close(s, order).fired)
  {
  }

  lemma CloseWhole(assign: int -> seq<Win>, s: State, order: seq<Slot>, i: nat)
    requires OpenOk(assign, s) && (forall i :: 0 <= i < |order| ==> order[i] in s.open) && i < |Close(s, order).fired|
    requires i < |s.fired| ==>
               var f := s.fired[i]; f.slot !in s.open && f.recs != [] && f.recs == Assigned(assign, s.accepted, f.slot)
    ensures var f := Close(s, order).fired[i];
            f.slot !in Close(s, order).open && f.recs != [] && f.recs == Assigned(assign, s.accepted, f.slot)
  {
    if i >= |s.fired| {
      assert order[i - |s.fired|] in Keys(order);
    }
  }

  lemma CloseComplete(assign: int -> seq<Win>, s: State, order: seq<Slot>)
    requires Complete(assign, s)
    ensures Complete(assign, Close(s, order))
  {
    var s' := Close(s, order);
    forall k | Assigned(assign, s.accepted, k) != [] ensures k in s'.open || HasFired(s'.fired, k) {
      if k in s.open {
        if k in Keys(order) {
          var i :| 0 <= i < |order| && order[i] == k;
          assert s'.fired[|s.fired| + i].slot == k;
        }
      } else {
        var i :| 0 <= i < |s.fired| && s.fired[i].slot == k;
        assert s'.fired[i].slot == k;
      }
    }
  }

  lemma WatermarkKeeps(assign: int -> seq<Win>, lateness: nat, s: State, e: Event)
    requires Inv(assign, lateness, s) && e.Watermark? && Step(Fixed(assign), lateness, s, e).Some?
    ensures Inv(assign, lateness, Step(Fixed(assign), lateness, s, e).value)
  {
    var s1 := s.(wm := if e.t > s.wm then e.t else s.wm);
    CloseKeeps(assign, lateness, s1, e.order);
  }

  lemma {:induction false} ExecKeeps(assign: int -> seq<Win>, times: iset<int>, lateness: nat, es: seq<Event>)
    requires EndsAfter(assign, times) && Over(es, times) && Exec(Fixed(assign), lateness, Init(), es).Some?
    ensures Inv(assign, lateness, Exec(Fixed(assign), lateness, Init(), es).value)
  {
    if es != [] {
      var s, e := Exec(Fixed(assign), lateness, Init(), es[..|es| - 1]).value, es[|es| - 1];
      ExecKeeps(assign, times, lateness, es[..|es| - 1]);
      if e.Watermark? {
        WatermarkKeeps(assign, lateness, s, e);
      } else if !TooLate(lateness, s.wm, e.r.ts) {
        RecordKeeps(assign, times, lateness, s, e.r, Step(Fixed(assign), lateness, s, e).value);
      }
    }
  }

  // ---- Whole runs ------------------------------------------------------------------------------

  /** What has fired is, window by window, exactly the accepted records assigned to it, in arrival order. */
  ghost predicate Conserves(assign: int -> seq<Win>, s: State) {
    && Once(s.fired)
    && (forall i :: 0 <= i < |s.fired| ==> s.fired[i].recs == Assigned(assign, s.accepted, s.fired[i].slot) != [])
    && (forall k :: Assigned(assign, s.accepted, k) != [] <==> HasFired(s.fired, k))
  }

  /** In a complete run every window that was given a record fires once, with exactly its records. */
  lemma FixedWindowsConserve(assign: int -> seq<Win>, times: iset<int>, lateness: nat, es: seq<Event>, order: seq<Slot>)
    requires EndsAfter(assign, times) && Over(es, times) && Exec(Fixed(assign), lateness, Init(), es).Some?
    requires Flush(Exec(Fixed(assign), lateness, Init(), es).value, order).Some?
    ensures Conserves(assign, Flush(Exec(Fixed(assign), lateness, Init(), es).value, order).value)
  {
    ExecKeeps(assign, times, lateness, es);
    var s := Exec(Fixed(assign), lateness, Init(), es).value;
    CloseKeeps(assign, lateness, s, order);
    var s' := Flush(s, order).value;
    assert s'.open == map[];
    forall k | HasFired(s'.fired, k) ensures Assigned(assign, s'.accepted, k) != [] {
    }
  }

  // ---- Windows that end before their records ------------------------------------------------------

  /** No run over these times, complete or not, fires a window twice. */
  ghost predicate AlwaysOnce(assign: int -> seq<Win>, times: iset<int>, lateness: nat) {
    forall es :: Over(es, times) && Exec(Fixed(assign), lateness, Init(), es).Some? ==>
      Once(Exec(Fixed(assign), lateness, Init(), es).value.fired)
  }

  /** Every complete run over these times conserves the accepted records. */
  ghost predicate AlwaysConserves(assign: int -> seq<Win>, times: iset<int>, lateness: nat) {
    forall es, order {:trigger Flush(Exec(Fixed(assign), lateness, Init(), es).value, order)} ::
      Over(es, times) && Exec(Fixed(assign), lateness, Init(), es).Some?
      && Flush(Exec(Fixed(assign), lateness, Init(), es).value, order).Some? ==>
        Conserves(assign, Flush(Exec(Fixed(assign), lateness, Init(), es).value, order).value)
  }

  /** A watermark that a window has reached fires it. */
  lemma FireDue(a: Assigner, s: State, wm: int, lateness: nat, k: Slot) returns (order: seq<Slot>, s': State)
    requires k in s.open && k.win.end + lateness <= wm && s.wm <= wm
    ensures Step(a, lateness, s, Watermark(wm, order)) == Some(s') && s'.wm == wm && s'.accepted == s.accepted
    ensures s.fired <= s'.fired && FiredSince(s.fired, s'.fired, k)
  {
    order := Listing(Due(s.open, wm, lateness));
    assert k in Due(s.open, wm, lateness);
    s' := Close(s.(wm := wm), order);
    var i :| 0 <= i < |order| && order[i] == k;
    assert s'.fired[|s.fired| + i].slot == k;
  }

  ghost predicate FiredSince(before: seq<Fired>, after: seq<Fired>, k: Slot) {
    exists i :: |before| <= i < |after| && after[i].slot == k
  }

  function Accept(assign: int -> seq<Win>, s: State, r: Rec): State {
    s.(open := PlaceAll(s.open, WrapAll(assign(r.ts)), Kept(r)), accepted := s.accepted + [r])
  }

  lemma Opens(assign: int -> seq<Win>, s: State, r: Rec, w: Win)
    requires w in assign(r.ts)
    ensures Slot(r.key, Wrap(w)) in Accept(assign, s, r).open
  {
    WrappedIn(assign(r.ts), Wrap(w));
    Placed(s.open, WrapAll(assign(r.ts)), Kept(r), Slot(r.key, Wrap(w)));
  }

  /** A record whose window is stored with an end that has passed opens it, and it fires at the next watermark. */
  lemma Reopened(assign: int -> seq<Win>, lateness: nat, s: State, r: Rec, w: Win) returns (order: seq<Slot>, s': State)
    requires w in assign(r.ts) && Wrap(w).end <= r.ts && s.wm <= r.ts + lateness
    ensures Step(Fixed(assign), lateness, Accept(assign, s, r), Watermark(r.ts + lateness, order)) == Some(s')
    ensures s'.wm == r.ts + lateness && s.fired <= s'.fired && FiredSince(s.fired, s'.fired, Slot(r.key, Wrap(w)))
  {
    Opens(assign, s, r, w);
    order, s' := FireDue(Fixed(assign), Accept(assign, s, r), r.ts + lateness, lateness, Slot(r.key, Wrap(w)));
  }

  lemma OpenAndFire(assign: int -> seq<Win>, lateness: nat, es: seq<Event>, s: State, ts: int, w: Win)
    returns (es': seq<Event>, s': State)
    requires Exec(Fixed(assign), lateness, Init(), es) == Some(s) && Over(es, iset{ts})
    requires w in assign(ts) && UnixNano(w.end) <= ts && (s.wm == ZERO_TIME || s.wm == ts + lateness)
    ensures Exec(Fixed(assign), lateness, Init(), es') == Some(s') && Over(es', iset{ts}) && s'.wm == ts + lateness
    ensures s.fired <= s'.fired && FiredSince(s.fired, s'.fired, Slot("", Wrap(w)))
  {
    var r := Rec("", ts, [], |s.accepted|);
    AcceptStep(assign, lateness, s, r);
    es', s' := AcceptAndFire(assign, lateness, es, s, r, w);
  }

  lemma AcceptAndFire(assign: int -> seq<Win>, lateness: nat, es: seq<Event>, s: State, r: Rec, w: Win)
    returns (es': seq<Event>, s': State)
    requires Exec(Fixed(assign), lateness, Init(), es) == Some(s) && Over(es, iset{r.ts})
    requires Step(Fixed(assign), lateness, s, Record(r, [])) == Some(Accept(assign, s, r))
    requires w in assign(r.ts) && Wrap(w).end <= r.ts && s.wm <= r.ts + lateness
    ensures Exec(Fixed(assign), lateness, Init(), es') == Some(s') && Over(es', iset{r.ts}) && s'.wm == r.ts + lateness
    ensures s.fired <= s'.fired && FiredSince(s.fired, s'.fired, Slot(r.key, Wrap(w)))
  {
    var order;
    order, s' := Reopened(assign, lateness, s, r, w);
    es' := TwoMore(Fixed(assign), lateness, iset{r.ts}, es, s, Record(r, []), Accept(assign, s, r), Watermark(r.ts + lateness, order), s');
  }

  lemma AcceptStep(assign: int -> seq<Win>, lateness: nat, s: State, r: Rec)
    requires !TooLate(lateness, s.wm, r.ts) && r.n == |s.accepted|
    ensures Step(Fixed(assign), lateness, s, Record(r, [])) == Some(Accept(assign, s, r))
  {
  }

  lemma TwoMore(a: Assigner, lateness: nat, times: iset<int>, es: seq<Event>, s: State, e: Event, s1: State, f: Event, s': State)
    returns (es': seq<Event>)
    requires Exec(a, lateness, Init(), es) == Some(s) && Step(a, lateness, s, e) == Some(s1) && Step(a, lateness, s1, f) == Some(s')
    requires Over(es, times) && (e.Record? ==> e.r.ts in times) && f.Watermark?
    ensures Exec(a, lateness, Init(), es') == Some(s') && Over(es', times)
  {
    Extend(a, lateness, es, s, e, s1);
    Extend(a, lateness, es + [e], s1, f, s');
    es' := es + [e] + [f];
  }

  /** A window that is stored with an end no later than its record fires twice in some run. */
  lemma FiresTwice(assign: int -> seq<Win>, lateness: nat, ts: int, w: Win) returns (es: seq<Event>)
    requires w in assign(ts) && UnixNano(w.end) <= ts
    ensures Over(es, iset{ts}) && Exec(Fixed(assign), lateness, Init(), es).Some?
    ensures !Once(Exec(Fixed(assign), lateness, Init(), es).value.fired)
  {
    assert Exec(Fixed(assign), lateness, Init(), []) == Some(Init());
    var es1, s1 := OpenAndFire(assign, lateness, [], Init(), ts, w);
    var es2, s2 := OpenAndFire(assign, lateness, es1, s1, ts, w);
    var i :| 0 <= i < |s1.fired| && s1.fired[i].slot == Slot("", Wrap(w));
    var j :| |s1.fired| <= j < |s2.fired| && s2.fired[j].slot == Slot("", Wrap(w));
    assert s2.fired[i] == s1.fired[i];
    es := es2;
  }

  lemma FlushTwice(s: State) returns (order: seq<Slot>)
    requires !Once(s.fired)
    ensures Flush(s, order).Some? && !Once(Flush(s, order).value.fired)
  {
    order := Listing(s.open.Keys);
    var s' := Flush(s, order).value;
    var i, j :| 0 <= i < j < |s.fired| && s.fired[i].slot == s.fired[j].slot;
    assert s'.fired[i] == s.fired[i] && s'.fired[j] == s.fired[j];
  }

  /**
    Over a set of event times, each window fires at most once in every run, and every complete run
    conserves the accepted records, if and only if every assigned window, as stored, ends after its record.
   */
  lemma FiresOnceIff(assign: int -> seq<Win>, times: iset<int>, lateness: nat)
    ensures AlwaysOnce(assign, times, lateness) <==> EndsAfter(assign, times)
    ensures AlwaysConserves(assign, times, lateness) <==> EndsAfter(assign, times)
  {
    if EndsAfter(assign, times) {
      forall es | Over(es, times) && Exec(Fixed(assign), lateness, Init(), es).Some?
        ensures Once(Exec(Fixed(assign), lateness, Init(), es).value.fired) {
        ExecKeeps(assign, times, lateness, es);
      }
      forall es, order | Over(es, times) && Exec(Fixed(assign), lateness, Init(), es).Some?
        && Flush(Exec(Fixed(assign), lateness, Init(), es).value, order).Some?
        ensures Conserves(assign, Flush(Exec(Fixed(assign), lateness, Init(), es).value, order).value) {
        FixedWindowsConserve(assign, times, lateness, es, order);
      }
    } else {
      var ts :| ts in times && !LaterEnds(assign(ts), ts);
      var w :| w in assign(ts) && UnixNano(w.end) <= ts;
      var es := FiresTwice(assign, lateness, ts, w);
      assert Over(es, times);
      var order := FlushTwice(Exec(Fixed(assign), lateness, Init(), es).value);
    }
  }

  /** Tumbling windows do exactly for times whose slot ends within the int64 range, or that lie before it. */
  lemma TumblingEndsAfterIff(size: int, offset: int, times: iset<int>)
    requires 0 < size <= MAX_NANOS
    ensures EndsAfter(ts => Tumbling(ts, size, offset), times) <==>
              forall ts :: ts in times ==> ts < MIN_NANOS || (Fits(ts) && SlotStart(ts, size, offset) + size <= MAX_NANOS)
  {
    forall ts | ts in times
      ensures LaterEnds(Tumbling(ts, size, offset), ts) <==>
                ts < MIN_NANOS || (Fits(ts) && SlotStart(ts, size, offset) + size <= MAX_NANOS) {
      TumblingLater(ts, size, offset);
    }
  }

  lemma TumblingLater(ts: int, size: int, offset: int)
    requires 0 < size <= MAX_NANOS
    ensures LaterEnds(Tumbling(ts, size, offset), ts) <==>
              ts < MIN_NANOS || (Fits(ts) && SlotStart(ts, size, offset) + size <= MAX_NANOS)
  {
    TumblingExact(ts, size, offset);
    EndsLater(Tumbling(ts, size, offset), ts, SlotStart(ts, size, offset), size);
  }

  /** A single window that is stored from the slot at `slot`, less than the size from its time. */
  lemma EndsLater(wins: seq<Win>, ts: int, slot: int, size: int)
    requires |wins| == 1 && 0 < size <= MAX_NANOS && slot - size < UnixNano(ts) < slot + size
    requires wins[0] == Win(UnixNano(slot), UnixNano(slot) + size)
    ensures LaterEnds(wins, ts) <==> ts < MIN_NANOS || (Fits(ts) && slot + size <= MAX_NANOS)
  {
    WholeTurns(slot);
    SameTurn(slot + size, UnixNano(slot) + size);
    if slot + size > MAX_NANOS {
      WrapsOnce(slot + size);
    }
    assert wins[0] in wins;
  }

  /** The size 10 window of the last int64 instant fires twice: it is stored with an end in the year 1677. */
  lemma TopWindowTwice(lateness: nat) returns (es: seq<Event>)
    ensures Over(es, iset{MAX_NANOS}) && Exec(Fixed(ts => Tumbling(ts, 10, 0)), lateness, Init(), es).Some?
    ensures !Once(Exec(Fixed(ts => Tumbling(ts, 10, 0)), lateness, Init(), es).value.fired)
  {
    var wins := Tumbling(MAX_NANOS, 10, 0);
    TumblingExact(MAX_NANOS, 10, 0);
    WrapsOnce(wins[0].end);
    es := FiresTwice(ts => Tumbling(ts, 10, 0), lateness, MAX_NANOS, wins[0]);
  }

  // ---- Sliding windows --------------------------------------------------------------------------

  /** The assigner that slides by `slide`. */
  ghost predicate Slides(assign: int -> seq<Win>, size: int, slide: int, offset: int)
    requires slide > 0
  {
    forall ts :: SlidingWindows(assign(ts), ts, size, slide, WindowStart(ts, slide, offset))
  }

  /** The end of the latest window that contains `ts`. */
  function LatestEnd(ts: int, size: int, slide: int, offset: int): int
    requires slide > 0
  {
    ts - Into(ts, slide, WindowStart(ts, slide, offset)) + size
  }

  lemma EndLater(ts: int, end: int)
    requires ts < end <= ts + MAX_NANOS
    ensures UnixNano(end) > ts <==> ts < MIN_NANOS || (Fits(ts) && Fits(end))
  {
    if Fits(ts) && end > MAX_NANOS {
      WrapsOnce(end);
    }
  }

  /** Every window that contains `ts` ends after it, the latest one last. */
  lemma SlidingEnds(wins: seq<Win>, ts: int, size: int, slide: int, last: int)
    requires 0 < slide <= size && SlidingWindows(wins, ts, size, slide, last)
    ensures forall w :: w in wins ==> ts < w.end <= ts - Into(ts, slide, last) + size
    ensures exists w :: w in wins && w.end == ts - Into(ts, slide, last) + size
    ensures 0 <= Into(ts, slide, last)
  {
    var grid, floor := Starts(slide, last), ts - Into(ts, slide, last);
    FloorAligned(ts, slide, last);
    StartsGrid(slide, last);
    assert Covers(Win(floor, floor + size), ts, size, grid);
    assert Win(floor, floor + size) in wins;
    forall w | w in wins ensures ts < w.end <= floor + size {
      assert Covers(w, ts, size, grid);
      AfterFloor(ts, slide, grid, floor, w.start);
    }
  }

  lemma SlidingLater(wins: seq<Win>, ts: int, size: int, slide: int, offset: int)
    requires 0 < slide <= size <= MAX_NANOS && SlidingWindows(wins, ts, size, slide, WindowStart(ts, slide, offset))
    ensures LaterEnds(wins, ts) <==> ts < MIN_NANOS || (Fits(ts) && Fits(LatestEnd(ts, size, slide, offset)))
  {
    SlidingEnds(wins, ts, size, slide, WindowStart(ts, slide, offset));
    LatestDecides(wins, ts, LatestEnd(ts, size, slide, offset));
  }

  lemma LatestDecides(wins: seq<Win>, ts: int, end: int)
    requires end <= ts + MAX_NANOS && (forall w :: w in wins ==> ts < w.end <= end) && exists w :: w in wins && w.end == end
    ensures LaterEnds(wins, ts) <==> ts < MIN_NANOS || (Fits(ts) && Fits(end))
  {
    forall w | w in wins ensures UnixNano(w.end) > ts <==> ts < MIN_NANOS || (Fits(ts) && Fits(w.end)) {
      EndLater(ts, w.end);
    }
  }

  /** With a slide no longer than the size, exactly the times whose latest window ends within the int64 range, or that lie before it. */
  lemma SlidingEndsAfterIff(assign: int -> seq<Win>, size: int, slide: int, offset: int, times: iset<int>)
    requires 0 < slide <= size <= MAX_NANOS && Slides(assign, size, slide, offset)
    ensures EndsAfter(assign, times) <==>
              forall ts :: ts in times ==> ts < MIN_NANOS || (Fits(ts) && Fits(LatestEnd(ts, size, slide, offset)))
  {
    forall ts | ts in times
      ensures LaterEnds(assign(ts), ts) <==> ts < MIN_NANOS || (Fits(ts) && Fits(LatestEnd(ts, size, slide, offset))) {
      assert SlidingWindows(assign(ts), ts, size, slide, WindowStart(ts, slide, offset));
      SlidingLater(assign(ts), ts, size, slide, offset);
    }
  }

  /** The int64 times with int64 windows that do not overflow the offset. */
  ghost function PlainTimes(assign: int -> seq<Win>, offset: int): iset<int> {
    iset ts | Fits(ts) && Fits(ts - offset) && forall w :: w in assign(ts) ==> Fits(w.end)
  }

  /** Away from the ends of the int64 range, sliding windows do exactly when the slide is no longer than the size. */
  lemma SlideWithinSizeIff(assign: int -> seq<Win>, size: int, slide: int, offset: int)
    requires 0 < size <= MAX_NANOS && slide > 0 && Fits(offset) && Fits(offset + size) && Slides(assign, size, slide, offset)
    ensures EndsAfter(assign, PlainTimes(assign, offset)) <==> slide <= size
  {
    if slide <= size {
      forall ts | ts in PlainTimes(assign, offset) ensures LaterEnds(assign(ts), ts) {
        assert SlidingWindows(assign(ts), ts, size, slide, WindowStart(ts, slide, offset));
        FloorAligned(ts, slide, WindowStart(ts, slide, offset));
      }
    } else {
      BetweenSlides(assign, size, slide, offset);
    }
  }

  /** A time `size` after the offset starts no slot, and belongs to the slot at the offset. */
  lemma SizeAfterOffset(size: int, slide: int, offset: int)
    requires 0 < size < slide && size <= MAX_NANOS && Fits(offset) && Fits(offset + size)
    ensures WindowStart(offset + size, slide, offset) == offset && Into(offset + size, slide, offset) == size
  {
    StartAligned(offset + size, slide, offset);
    var d := WindowStart(offset + size, slide, offset) - offset;
    ModUnique(0, slide, 0);
    ModUnique(size, slide, 0);
    if d >= 0 {
      Apart(0, d, slide);
    } else {
      Apart(d, 0, slide);
    }
  }

  /** A time between two windows goes to the one that has ended. */
  lemma BetweenSlides(assign: int -> seq<Win>, size: int, slide: int, offset: int)
    requires 0 < size < slide && size <= MAX_NANOS && Fits(offset) && Fits(offset + size) && Slides(assign, size, slide, offset)
    ensures assign(offset + size) == [Win(offset, offset + size)] && !EndsAfter(assign, PlainTimes(assign, offset))
  {
    var ts := offset + size;
    SizeAfterOffset(size, slide, offset);
    OnlyLast(assign(ts), ts, size, slide, WindowStart(ts, slide, offset));
    AtEnd(assign, ts, offset, Win(offset, ts));
  }

  lemma OnlyLast(wins: seq<Win>, ts: int, size: int, slide: int, last: int)
    requires slide > 0 && SlidingWindows(wins, ts, size, slide, last) && Into(ts, slide, last) >= size
    ensures wins == [Win(last, last + size)]
  {
  }

  lemma AtEnd(assign: int -> seq<Win>, ts: int, offset: int, w: Win)
    requires assign(ts) == [w] && w.end == ts && Fits(ts) && Fits(ts - offset)
    ensures !EndsAfter(assign, PlainTimes(assign, offset))
  {
    assert w in assign(ts);
    assert !LaterEnds(assign(ts), ts);
    assert ts in PlainTimes(assign, offset);
  }
}
