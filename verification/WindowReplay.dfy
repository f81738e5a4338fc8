/** The same input from the same state fires the same windows, each as often. */
module WindowReplay {
  // Replaying the same input from the same state fires the same windows with the same records, each
  // as often, whatever order the backend lists its keys in. `WindowRestore` puts this together with
  // the handover of a snapshot.

  import opened Prelude
  import opened WindowAssign
  import opened Windows
  import SW = SessionWindows

  /** Two lists of records that agree: entry by entry for fixed windows, up to order for sessions. */
  predicate Agree(a: Assigner, x: seq<Rec>, y: seq<Rec>) {
    if a.Fixed? then x == y else multiset(x) == multiset(y)
  }

  ghost predicate OpenAgree(a: Assigner, x: map<Slot, seq<Rec>>, y: map<Slot, seq<Rec>>) {
    x.Keys == y.Keys && forall k :: k in x ==> Agree(a, x[k], y[k])
  }

  /** A firing as it counts: its window with the records in order for fixed windows, in any order for sessions. */
  datatype Firing = InOrder(slot: Slot, recs: seq<Rec>) | AnyOrder(slot: Slot, bag: multiset<Rec>)

  function Counted(a: Assigner, f: Fired): Firing {
    if a.Fixed? then InOrder(f.slot, f.recs) else AnyOrder(f.slot, multiset(f.recs))
  }

  /** How often each firing occurs. */
  function Tally(a: Assigner, fs: seq<Fired>): multiset<Firing> {
    if fs == [] then multiset{} else Tally(a, fs[..|fs| - 1]) + multiset{Counted(a, fs[|fs| - 1])}
  }

  /** Equal up to the order in which windows fired, and in which a session lists its records. */
  ghost predicate Alike(a: Assigner, s: State, t: State) {
    OpenAgree(a, s.open, t.open) && s.wm == t.wm && s.accepted == t.accepted && Tally(a, s.fired) == Tally(a, t.fired)
  }

  predicate SameInput(e: Event, e': Event) {
    match e
    case Record(r, _) => e'.Record? && e'.r == r
    case Watermark(t, _) => e'.Watermark? && e'.t == t
  }

  // ---- Records ---------------------------------------------------------------------------

  lemma {:induction false} PlaceAllAgree(a: Assigner, x: map<Slot, seq<Rec>>, y: map<Slot, seq<Rec>>, wins: seq<Win>, r: Rec)
    requires a.Fixed? && OpenAgree(a, x, y)
    ensures OpenAgree(a, PlaceAll(x, wins, r), PlaceAll(y, wins, r))
  {
    if wins != [] {
      PlaceAllAgree(a, x, y, wins[..|wins| - 1], r);
    }
  }

  lemma HullOfSet(o: seq<Slot>, p: seq<Slot>, ks: set<Slot>, w: Win)
    requires Lists(o, ks) && Lists(p, ks)
    ensures Hull(o, w) == Hull(p, w)
  {
    HullWithin(o, p, ks, w);
    HullWithin(p, o, ks, w);
  }

  lemma HullWithin(o: seq<Slot>, p: seq<Slot>, ks: set<Slot>, w: Win)
    requires Lists(o, ks) && Lists(p, ks)
    ensures Hull(o, w).start >= Hull(p, w).start && Hull(o, w).end <= Hull(p, w).end
  {
    SW.HullBounds(o, w);
    SW.HullBounds(p, w);
    if i :| 0 <= i < |o| && Hull(o, w).start == o[i].win.start {
      assert o[i] in p;
    }
    if i :| 0 <= i < |o| && Hull(o, w).end == o[i].win.end {
      assert o[i] in p;
    }
  }

  lemma GatherLast(open: map<Slot, seq<Rec>>, o: seq<Slot>, k: Slot)
    ensures multiset(Gather(open, o + [k])) == multiset(Gather(open, o)) + multiset(Get(open, k))
  {
    assert (o + [k])[..|o|] == o;
  }

  /** `o` without its entry at `i`. */
  function Without(o: seq<Slot>, i: nat): seq<Slot>
    requires i < |o|
  {
    o[..i] + o[i + 1..]
  }

  lemma WithoutLast(o: seq<Slot>, i: nat)
    requires i < |o|
    ensures var us, k := o[..|o| - 1], o[|o| - 1];
            o == us + [k] && if i == |us| then Without(o, i) == us else us[i] == o[i] && Without(o, i) == Without(us, i) + [k]
  {
  }

  lemma {:induction false} GatherWithout(open: map<Slot, seq<Rec>>, o: seq<Slot>, i: nat)
    requires i < |o|
    ensures multiset(Gather(open, o)) == multiset(Gather(open, Without(o, i))) + multiset(Get(open, o[i]))
    decreases |o|
  {
    var us, k := o[..|o| - 1], o[|o| - 1];
    WithoutLast(o, i);
    GatherLast(open, us, k);
    if i < |us| {
      GatherWithout(open, us, i);
      GatherLast(open, Without(us, i), k);
      BagSwap(multiset(Gather(open, Without(us, i))), multiset(Get(open, us[i])), multiset(Get(open, k)));
    }
  }

  lemma {:induction false} GatherOfSet(a: Assigner, x: map<Slot, seq<Rec>>, y: map<Slot, seq<Rec>>, o: seq<Slot>, p: seq<Slot>, ks: set<Slot>)
    requires a.Sessions? && OpenAgree(a, x, y) && Lists(o, ks) && Lists(p, ks)
    ensures multiset(Gather(x, o)) == multiset(Gather(y, p))
    decreases |o|
  {
    if o == [] {
      SameSet(o, p, ks);
    } else {
      var n, k := |o| - 1, o[|o| - 1];
      var i :| 0 <= i < |p| && p[i] == k;
      GatherWithout(y, p, i);
      var q := Without(p, i);
      Shorter(o, ks);
      Dropped(p, i, ks);
      GatherOfSet(a, x, y, o[..n], q, ks - {k});
      assert multiset(Get(x, k)) == multiset(Get(y, k));
    }
  }

  lemma Shorter(o: seq<Slot>, ks: set<Slot>)
    requires Lists(o, ks) && o != []
    ensures Lists(o[..|o| - 1], ks - {o[|o| - 1]})
  {
  }

  lemma Dropped(p: seq<Slot>, i: nat, ks: set<Slot>)
    requires Lists(p, ks) && i < |p|
    ensures Lists(Without(p, i), ks - {p[i]})
  {
    var q := Without(p, i);
    forall x | x in ks - {p[i]} ensures x in q {
      var j :| 0 <= j < |p| && p[j] == x;
      assert q[if j < i then j else j - 1] == x;
    }
  }

  /** Two listings of one set: the same set of keys, and empty together. */
  lemma SameSet(o: seq<Slot>, p: seq<Slot>, ks: set<Slot>)
    requires Lists(o, ks) && Lists(p, ks)
    ensures Keys(o) == ks && Keys(p) == ks && (o == [] <==> p == [])
  {
    assert o != [] ==> o[0] in p;
    assert p != [] ==> p[0] in o;
  }

  lemma AppendAgree(a: Assigner, x: map<Slot, seq<Rec>>, y: map<Slot, seq<Rec>>, k: Slot, u: seq<Rec>, v: seq<Rec>)
    requires a.Sessions? && OpenAgree(a, x, y) && multiset(u) == multiset(v)
    ensures OpenAgree(a, Append(x, k, u), Append(y, k, v))
  {
    assert multiset(Get(x, k) + u) == multiset(Get(x, k)) + multiset(u);
    assert multiset(Get(y, k) + v) == multiset(Get(y, k)) + multiset(v);
    assert multiset(Get(x, k)) == multiset(Get(y, k));
  }

  lemma SessionAgree(a: Assigner, x: map<Slot, seq<Rec>>, y: map<Slot, seq<Rec>>, w: Win, r: Rec, o: seq<Slot>, p: seq<Slot>)
    requires a.Sessions? && OpenAgree(a, x, y) && Lists(o, Touching(x, r.key, w)) && Lists(p, Touching(y, r.key, w))
    ensures OpenAgree(a, PlaceSession(x, w, r, o), PlaceSession(y, w, r, p))
  {
    var ks := Touching(x, r.key, w);
    assert Touching(y, r.key, w) == ks;
    SameSet(o, p, ks);
    if o == [] {
      AppendAgree(a, x, y, Slot(r.key, Wrap(w)), [r], [r]);
    } else {
      HullOfSet(o, p, ks, w);
      GatherOfSet(a, x, y, o, p, ks);
      AppendAgree(a, x - ks, y - ks, Slot(r.key, Wrap(Hull(o, w))), Gather(x, o) + [r], Gather(y, p) + [r]);
    }
  }

  lemma RecordAlike(a: Assigner, lateness: nat, s: State, t: State, e: Event, e': Event)
    requires Alike(a, s, t) && SameInput(e, e') && e.Record? && Step(a, lateness, s, e).Some? && Step(a, lateness, t, e').Some?
    ensures Alike(a, Step(a, lateness, s, e).value, Step(a, lateness, t, e').value)
  {
    if !TooLate(lateness, s.wm, e.r.ts) {
      if a.Fixed? {
        PlaceAllAgree(a, s.open, t.open, WrapAll(a.assign(e.r.ts)), Kept(e.r));
      } else {
        SessionAgree(a, s.open, t.open, Session(e.r.ts, a.gap)[0], Kept(e.r), e.order, e'.order);
      }
    }
  }

  // ---- Firing ------------------------------------------------------------------------------

  lemma TallyAppend(a: Assigner, fs: seq<Fired>, f: Fired)
    ensures Tally(a, fs + [f]) == Tally(a, fs) + multiset{Counted(a, f)}
  {
    assert (fs + [f])[..|fs|] == fs;
  }

  lemma {:induction false} TallyConcat(a: Assigner, fs: seq<Fired>, gs: seq<Fired>)
    ensures Tally(a, fs + gs) == Tally(a, fs) + Tally(a, gs)
    decreases |gs|
  {
    if gs == [] {
      assert fs + gs == fs;
    } else {
      var hs, g := gs[..|gs| - 1], gs[|gs| - 1];
      assert gs == hs + [g] && fs + gs == (fs + hs) + [g];
      TallyAppend(a, hs, g);
      TallyAppend(a, fs + hs, g);
      TallyConcat(a, fs, hs);
      BagSwap(Tally(a, fs), Tally(a, hs), multiset{Counted(a, g)});
    }
  }

  /** The firings of the windows `o` from `open`, one after the other. */
  function TallyOf(a: Assigner, open: map<Slot, seq<Rec>>, o: seq<Slot>): multiset<Firing> {
    if o == [] then multiset{} else TallyOf(a, open, o[..|o| - 1]) + multiset{Counted(a, Fired(o[|o| - 1], Get(open, o[|o| - 1])))}
  }

  lemma {:induction false} TallyFires(a: Assigner, open: map<Slot, seq<Rec>>, o: seq<Slot>)
    ensures Tally(a, FireAll(open, o)) == TallyOf(a, open, o)
  {
    if o != [] {
      TallyFires(a, open, o[..|o| - 1]);
      assert FireAll(open, o)[..|o| - 1] == FireAll(open, o[..|o| - 1]);
    }
  }

  lemma TallyLast(a: Assigner, open: map<Slot, seq<Rec>>, o: seq<Slot>, k: Slot)
    ensures TallyOf(a, open, o + [k]) == TallyOf(a, open, o) + multiset{Counted(a, Fired(k, Get(open, k)))}
  {
    assert (o + [k])[..|o|] == o;
  }

  lemma BagSwap<T>(x: multiset<T>, y: multiset<T>, z: multiset<T>)
    ensures (x + y) + z == (x + z) + y && (x + y) + z == x + (y + z)
  {
  }

  lemma {:induction false} TallyWithout(a: Assigner, open: map<Slot, seq<Rec>>, o: seq<Slot>, i: nat)
    requires i < |o|
    ensures TallyOf(a, open, o) == TallyOf(a, open, Without(o, i)) + multiset{Counted(a, Fired(o[i], Get(open, o[i])))}
    decreases |o|
  {
    var us, k := o[..|o| - 1], o[|o| - 1];
    WithoutLast(o, i);
    TallyLast(a, open, us, k);
    if i < |us| {
      TallyWithout(a, open, us, i);
      TallyLast(a, open, Without(us, i), k);
      BagSwap(TallyOf(a, open, Without(us, i)), multiset{Counted(a, Fired(us[i], Get(open, us[i])))}, multiset{Counted(a, Fired(k, Get(open, k)))});
    }
  }

  /** Windows that agree fire alike in any order. */
  lemma {:induction false} TallyOfSet(a: Assigner, x: map<Slot, seq<Rec>>, y: map<Slot, seq<Rec>>, o: seq<Slot>, p: seq<Slot>, ks: set<Slot>)
    requires OpenAgree(a, x, y) && Lists(o, ks) && Lists(p, ks)
    ensures TallyOf(a, x, o) == TallyOf(a, y, p)
    decreases |o|
  {
    if o == [] {
      SameSet(o, p, ks);
    } else {
      var n, k := |o| - 1, o[|o| - 1];
      var i :| 0 <= i < |p| && p[i] == k;
      TallyWithout(a, y, p, i);
      Shorter(o, ks);
      Dropped(p, i, ks);
      TallyOfSet(a, x, y, o[..n], Without(p, i), ks - {k});
    }
  }

  lemma CloseAlike(a: Assigner, s: State, t: State, o: seq<Slot>, p: seq<Slot>, ks: set<Slot>)
    requires Alike(a, s, t) && Lists(o, ks) && Lists(p, ks) && ks <= s.open.Keys
    ensures Alike(a, Close(s, o), Close(t, p))
  {
    assert Keys(o) == ks && Keys(p) == ks;
    TallyConcat(a, s.fired, FireAll(s.open, o));
    TallyConcat(a, t.fired, FireAll(t.open, p));
    TallyFires(a, s.open, o);
    TallyFires(a, t.open, p);
    TallyOfSet(a, s.open, t.open, o, p, ks);
  }

  lemma StepAlike(a: Assigner, lateness: nat, s: State, t: State, e: Event, e': Event)
    requires Alike(a, s, t) && SameInput(e, e') && Step(a, lateness, s, e).Some? && Step(a, lateness, t, e').Some?
    ensures Alike(a, Step(a, lateness, s, e).value, Step(a, lateness, t, e').value)
  {
    if e.Record? {
      RecordAlike(a, lateness, s, t, e, e');
    } else {
      var wm := if e.t > s.wm then e.t else s.wm;
      assert Due(s.open, wm, lateness) == Due(t.open, wm, lateness);
      CloseAlike(a, s.(wm := wm), t.(wm := wm), e.order, e'.order, Due(s.open, wm, lateness));
    }
  }

  /** From states that agree, the same input leads to states that agree, and so does the end of the input. */
  lemma {:induction false} ReplayAlike(a: Assigner, lateness: nat, s: State, t: State, es: seq<Event>, es': seq<Event>)
    requires Alike(a, s, t) && |es| == |es'| && forall i :: 0 <= i < |es| ==> SameInput(es[i], es'[i])
    requires Exec(a, lateness, s, es).Some? && Exec(a, lateness, t, es').Some?
    ensures Alike(a, Exec(a, lateness, s, es).value, Exec(a, lateness, t, es').value)
  {
    if es != [] {
      var n := |es| - 1;
      ReplayAlike(a, lateness, s, t, es[..n], es'[..n]);
      StepAlike(a, lateness, Exec(a, lateness, s, es[..n]).value, Exec(a, lateness, t, es'[..n]).value, es[n], es'[n]);
    }
  }

  lemma FlushAlike(a: Assigner, s: State, t: State, o: seq<Slot>, p: seq<Slot>)
    requires Alike(a, s, t) && Flush(s, o).Some? && Flush(t, p).Some?
    ensures Alike(a, Flush(s, o).value, Flush(t, p).value)
  {
    CloseAlike(a, s, t, o, p, s.open.Keys);
  }
}
