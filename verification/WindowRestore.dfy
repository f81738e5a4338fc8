/** A restored window operator fires what it would have fired. */
module WindowRestore {
  import opened Prelude
  import opened Windows
  import opened WindowKeys
  import opened WindowOperatorModel
  import opened WindowReplay

  /** An input item. The number of a record counts the records accepted before it. */
  datatype Item = Data(r: Rec) | Mark(t: int)

  function WmAfter(wm: int, x: Item): int {
    if x.Mark? && x.t > wm then x.t else wm
  }

  function CountAfter(lateness: nat, wm: int, count: nat, x: Item): nat {
    if x.Data? && !TooLate(lateness, wm, x.r.ts) then count + 1 else count
  }

  /** The records of `xs` that are not too late are numbered from `count` on. */
  predicate Numbered(lateness: nat, wm: int, count: nat, xs: seq<Item>)
    decreases |xs|
  {
    xs == [] ||
    ((xs[0].Data? && !TooLate(lateness, wm, xs[0].r.ts) ==> xs[0].r.n == count)
     && Numbered(lateness, WmAfter(wm, xs[0]), CountAfter(lateness, wm, count, xs[0]), xs[1..]))
  }

  predicate Is(e: Event, x: Item) {
    match x
    case Data(r) => e.Record? && e.r == r
    case Mark(t) => e.Watermark? && e.t == t
  }

  /** `es` are the items `xs`, each with the order in which the backend listed its keys. */
  ghost predicate Carries(es: seq<Event>, xs: seq<Item>) {
    |es| == |xs| && forall i :: 0 <= i < |xs| ==> Is(es[i], xs[i])
  }

  lemma Advances(a: Assigner, lateness: nat, s: State, e: Event, x: Item, s': State)
    requires Is(e, x) && Step(a, lateness, s, e) == Some(s')
    ensures s'.wm == WmAfter(s.wm, x) && |s'.accepted| == CountAfter(lateness, s.wm, |s.accepted|, x)
  {
  }

  lemma ExecNext(a: Assigner, lateness: nat, s: State, es: seq<Event>, e: Event)
    ensures Exec(a, lateness, s, es + [e]) ==
              match Exec(a, lateness, s, es)
              case None => None
              case Some(t) => Step(a, lateness, t, e)
  {
    assert (es + [e])[..|es|] == es;
  }

  lemma {:induction false} ExecConcat(a: Assigner, lateness: nat, s: State, es: seq<Event>, fs: seq<Event>)
    requires Exec(a, lateness, s, es).Some?
    ensures Exec(a, lateness, s, es + fs) == Exec(a, lateness, Exec(a, lateness, s, es).value, fs)
    decreases |fs|
  {
    if fs == [] {
      assert es + fs == es;
    } else {
      var gs, f := fs[..|fs| - 1], fs[|fs| - 1];
      assert fs == gs + [f] && es + fs == (es + gs) + [f];
      ExecConcat(a, lateness, s, es, gs);
      ExecNext(a, lateness, s, es + gs, f);
      ExecNext(a, lateness, Exec(a, lateness, s, es).value, gs, f);
    }
  }

  function WmAt(wm: int, xs: seq<Item>): int
    decreases |xs|
  {
    if xs == [] then wm else WmAt(WmAfter(wm, xs[0]), xs[1..])
  }

  function CountAt(lateness: nat, wm: int, count: nat, xs: seq<Item>): nat
    decreases |xs|
  {
    if xs == [] then count else CountAt(lateness, WmAfter(wm, xs[0]), CountAfter(lateness, wm, count, xs[0]), xs[1..])
  }

  lemma {:induction false} NumberedSplit(lateness: nat, wm: int, count: nat, xs: seq<Item>, k: nat)
    requires Numbered(lateness, wm, count, xs) && k <= |xs|
    ensures Numbered(lateness, wm, count, xs[..k])
    ensures Numbered(lateness, WmAt(wm, xs[..k]), CountAt(lateness, wm, count, xs[..k]), xs[k..])
    decreases k
  {
    if k > 0 {
      NumberedSplit(lateness, WmAfter(wm, xs[0]), CountAfter(lateness, wm, count, xs[0]), xs[1..], k - 1);
      assert xs[..k][0] == xs[0] && xs[..k][1..] == xs[1..][..k - 1] && xs[k..] == xs[1..][k - 1..];
    }
  }

  // ---- The two runs as values ------------------------------------------------------------

  /** What an unset watermark reads as after a restore: an instant of the year 1754. */
  const UNSET: int := UnixNano(ZERO_TIME)

  predicate After1754(lateness: nat, x: Item) {
    match x
    case Data(r) => r.ts >= UNSET - lateness
    case Mark(t) => t > UNSET
  }

  predicate AllAfter1754(lateness: nat, xs: seq<Item>) { forall i :: 0 <= i < |xs| ==> After1754(lateness, xs[i]) }

  /** A snapshot keeps what the rest of the input depends on: its watermark fits an int64, or none is set and the input is later than 1754. */
  predicate Survives(lateness: nat, wm: int, xs: seq<Item>) {
    Fits(wm) || (wm == ZERO_TIME && AllAfter1754(lateness, xs))
  }

  /** Equal, or equal but for an unset watermark that reads as 1754. */
  ghost predicate Near(s: State, t: State) {
    t == s || (s.wm == ZERO_TIME && t == s.(wm := UNSET))
  }

  lemma StepNear(a: Assigner, lateness: nat, s: State, t: State, e: Event, x: Item)
    requires Near(s, t) && Is(e, x) && (t != s ==> After1754(lateness, x)) && Step(a, lateness, t, e).Some?
    ensures Step(a, lateness, s, e).Some? && Near(Step(a, lateness, s, e).value, Step(a, lateness, t, e).value)
  {
  }

  lemma {:induction false} ExecNear(a: Assigner, lateness: nat, s: State, t: State, es: seq<Event>, xs: seq<Item>)
    requires Near(s, t) && Carries(es, xs) && (t != s ==> AllAfter1754(lateness, xs))
    requires Exec(a, lateness, t, es).Some?
    ensures Exec(a, lateness, s, es).Some? && Near(Exec(a, lateness, s, es).value, Exec(a, lateness, t, es).value)
    decreases |es|
  {
    if es != [] {
      var n := |es| - 1;
      ExecNear(a, lateness, s, t, es[..n], xs[..n]);
      StepNear(a, lateness, Exec(a, lateness, s, es[..n]).value, Exec(a, lateness, t, es[..n]).value, es[n], xs[n]);
    }
  }

  lemma RestoredNear(lateness: nat, s: State, xs: seq<Item>)
    requires Survives(lateness, s.wm, xs)
    ensures Near(s, s.(wm := UnixNano(s.wm)))
    ensures s.(wm := UnixNano(s.wm)) != s ==> AllAfter1754(lateness, xs)
  {
  }

  /** The state at the end of the input, and the firings behind it. */
  ghost predicate Ends(a: Assigner, lateness: nat, s: State, es: seq<Event>, o: seq<Slot>, end: State) {
    var t := Exec(a, lateness, s, es);
    t.Some? && Flush(t.value, o) == Some(end)
  }

  lemma NearEnds(a: Assigner, lateness: nat, s: State, t: State, es: seq<Event>, xs: seq<Item>, o: seq<Slot>, end: State)
    requires Near(s, t) && Carries(es, xs) && (t != s ==> AllAfter1754(lateness, xs))
    requires Ends(a, lateness, t, es, o, end)
    ensures Exec(a, lateness, s, es).Some? && Ends(a, lateness, s, es, o, end.(wm := Exec(a, lateness, s, es).value.wm))
  {
    ExecNear(a, lateness, s, t, es, xs);
  }

  /**
    For every input cut anywhere: if the snapshot keeps what the rest of the input depends on, the
    restored run over that rest and the end of the input leaves the same firings as the
    uninterrupted run, each as often, and has accepted the same records.
   */
  lemma SnapshotTransparent(a: Assigner, lateness: nat, xs: seq<Item>, cut: nat, es: seq<Event>, o: seq<Slot>, whole: State,
                            us: seq<Event>, mid: State, vs: seq<Event>, p: seq<Slot>, resumed: State)
    requires cut <= |xs| && Carries(es, xs) && Ends(a, lateness, Init(), es, o, whole)
    requires Carries(us, xs[..cut]) && Exec(a, lateness, Init(), us) == Some(mid) && Survives(lateness, mid.wm, xs[cut..])
    requires Carries(vs, xs[cut..]) && Ends(a, lateness, mid.(wm := UnixNano(mid.wm)), vs, p, resumed)
    ensures Tally(a, whole.fired) == Tally(a, resumed.fired) && whole.accepted == resumed.accepted
  {
    RestoredNear(lateness, mid, xs[cut..]);
    NearEnds(a, lateness, mid, mid.(wm := UnixNano(mid.wm)), vs, xs[cut..], p, resumed);
    ExecConcat(a, lateness, Init(), us, vs);
    SameInputs(xs, cut, es, us, vs);
    ReplayAlike(a, lateness, Init(), Init(), es, us + vs);
    FlushAlike(a, Exec(a, lateness, Init(), es).value, Exec(a, lateness, mid, vs).value, o, p);
  }

  lemma SameInputs(xs: seq<Item>, cut: nat, es: seq<Event>, us: seq<Event>, vs: seq<Event>)
    requires cut <= |xs| && Carries(es, xs) && Carries(us, xs[..cut]) && Carries(vs, xs[cut..])
    ensures |es| == |us + vs| && forall i :: 0 <= i < |es| ==> SameInput(es[i], (us + vs)[i])
  {
    forall i | 0 <= i < |es| ensures SameInput(es[i], (us + vs)[i]) {
      assert Is(es[i], xs[i]);
      assert i < cut ==> xs[..cut][i] == xs[i];
      assert i >= cut ==> xs[cut..][i - cut] == xs[i];
    }
  }

  // ---- The two runs as objects ---------------------------------------------------------------

  method HandleData(op: WindowOperator, r: Rec) returns (ghost e: Event)
    requires op.Valid() && (!TooLate(op.lateness, op.wm, r.ts) ==> r.n == |op.accepted|)
    modifies op
    ensures op.Valid() && Is(e, Data(r)) && Step(op.assigner, op.lateness, old(op.View()), e) == Some(op.View())
    ensures op.before == old(op.before) && op.fired == old(op.fired)
  {
    ghost var order := op.OnRecord(r);
    e := Record(r, order);
  }

  method HandleMark(op: WindowOperator, t: int) returns (ghost e: Event)
    requires op.Valid()
    modifies op
    ensures op.Valid() && Is(e, Mark(t)) && Step(op.assigner, op.lateness, old(op.View()), e) == Some(op.View())
    ensures op.before == old(op.before) && old(op.fired) <= op.fired
  {
    ghost var order := op.HandleWatermark(t);
    e := Watermark(t, order);
  }

  /** One item. */
  method Handle(op: WindowOperator, x: Item) returns (ghost e: Event)
    requires op.Valid() && (x.Data? && !TooLate(op.lateness, op.wm, x.r.ts) ==> x.r.n == |op.accepted|)
    modifies op
    ensures op.Valid() && Is(e, x) && Step(op.assigner, op.lateness, old(op.View()), e) == Some(op.View())
    ensures op.before == old(op.before) && op.fired[..op.before] == old(op.fired[..op.before])
  {
    match x
    case Data(r) => e := HandleData(op, r);
    case Mark(t) => e := HandleMark(op, t);
  }

  lemma RestNext(lateness: nat, wm: int, count: nat, xs: seq<Item>, i: nat)
    requires i < |xs| && Numbered(lateness, wm, count, xs[i..])
    ensures xs[i].Data? && !TooLate(lateness, wm, xs[i].r.ts) ==> xs[i].r.n == count
    ensures Numbered(lateness, WmAfter(wm, xs[i]), CountAfter(lateness, wm, count, xs[i]), xs[i + 1..])
    ensures WmAt(wm, xs[i..]) == WmAt(WmAfter(wm, xs[i]), xs[i + 1..])
    ensures CountAt(lateness, wm, count, xs[i..]) == CountAt(lateness, WmAfter(wm, xs[i]), CountAfter(lateness, wm, count, xs[i]), xs[i + 1..])
  {
    assert xs[i..][0] == xs[i] && xs[i..][1..] == xs[i + 1..];
  }

  lemma CarriesNext(es: seq<Event>, xs: seq<Item>, i: nat, e: Event)
    requires i < |xs| && Carries(es, xs[..i]) && Is(e, xs[i])
    ensures Carries(es + [e], xs[..i + 1])
  {
  }

  /** A stretch of input. */
  method Drive(op: WindowOperator, xs: seq<Item>) returns (ghost es: seq<Event>)
    requires op.Valid() && Numbered(op.lateness, op.wm, |op.accepted|, xs)
    modifies op
    ensures op.Valid() && Carries(es, xs) && Exec(op.assigner, op.lateness, old(op.View()), es) == Some(op.View())
    ensures op.wm == WmAt(old(op.wm), xs) && |op.accepted| == CountAt(op.lateness, old(op.wm), |old(op.accepted)|, xs)
    ensures op.before == old(op.before) && op.fired[..op.before] == old(op.fired[..op.before])
  {
    es := [];
    ghost var s0 := op.View();
    for i := 0 to |xs|
      invariant op.Valid() && Numbered(op.lateness, op.wm, |op.accepted|, xs[i..])
      invariant Carries(es, xs[..i]) && Exec(op.assigner, op.lateness, s0, es) == Some(op.View())
      invariant WmAt(op.wm, xs[i..]) == WmAt(s0.wm, xs)
      invariant CountAt(op.lateness, op.wm, |op.accepted|, xs[i..]) == CountAt(op.lateness, s0.wm, |s0.accepted|, xs)
      invariant op.before == old(op.before) && op.fired[..op.before] == old(op.fired[..op.before])
    {
      RestNext(op.lateness, op.wm, |op.accepted|, xs, i);
      ghost var s := op.View();
      ghost var e := Handle(op, xs[i]);
      Advances(op.assigner, op.lateness, s, e, xs[i], op.View());
      ExecNext(op.assigner, op.lateness, s0, es, e);
      CarriesNext(es, xs, i, e);
      es := es + [e];
    }
    assert xs[..|xs|] == xs;
  }

  lemma {:induction false} NumberedNear(lateness: nat, count: nat, xs: seq<Item>)
    requires Numbered(lateness, ZERO_TIME, count, xs) && AllAfter1754(lateness, xs)
    ensures Numbered(lateness, UNSET, count, xs)
    decreases |xs|
  {
    if xs != [] {
      assert After1754(lateness, xs[0]);
      if xs[0].Data? {
        NumberedNear(lateness, count + 1, xs[1..]);
      }
    }
  }

  lemma RestNumbered(lateness: nat, s: State, xs: seq<Item>)
    requires Survives(lateness, s.wm, xs) && Numbered(lateness, s.wm, |s.accepted|, xs)
    ensures Numbered(lateness, UnixNano(s.wm), |s.accepted|, xs)
  {
    if !Fits(s.wm) {
      NumberedNear(lateness, |s.accepted|, xs);
    }
  }

  method RunWhole(codec: Codec, assigner: Assigner, lateness: nat, reducer: Option<Reducer>, xs: seq<Item>)
    returns (op: WindowOperator, ghost es: seq<Event>, ghost o: seq<Slot>, ghost end: State)
    requires Faithful(codec) && Numbered(lateness, ZERO_TIME, 0, xs)
    ensures fresh(op) && Carries(es, xs) && Ends(assigner, lateness, Init(), es, o, end)
    ensures op.fired == end.fired && op.out == EmitAll(reducer, op.fired)
  {
    op := new WindowOperator(codec, assigner, lateness, reducer);
    es := Drive(op, xs);
    o := op.FlushRemaining();
    end := op.View();
    assert op.fired[0..] == op.fired;
  }

  /** Stop after the items `xs`. */
  method RunFirst(codec: Codec, assigner: Assigner, lateness: nat, reducer: Option<Reducer>, xs: seq<Item>)
    returns (first: WindowOperator, ghost us: seq<Event>, ghost mid: State)
    requires Faithful(codec) && Numbered(lateness, ZERO_TIME, 0, xs)
    ensures fresh(first) && first.Valid() && first.codec == codec && first.names == NamesOf(codec) && first.View() == mid
    ensures Carries(us, xs) && Exec(assigner, lateness, Init(), us) == Some(mid)
    ensures mid.wm == WmAt(ZERO_TIME, xs) && |mid.accepted| == CountAt(lateness, ZERO_TIME, 0, xs)
    ensures first.out == EmitAll(reducer, mid.fired)
  {
    first := new WindowOperator(codec, assigner, lateness, reducer);
    us := Drive(first, xs);
    mid := first.View();
    assert first.fired[0..] == first.fired;
  }

  /** Hand the snapshot of `first` to a fresh operator. */
  method Continue(first: WindowOperator, assigner: Assigner, lateness: nat, reducer: Option<Reducer>) returns (next: WindowOperator)
    requires first.Valid() && Faithful(first.codec) && first.names == NamesOf(first.codec)
    ensures fresh(next) && next.Valid() && next.View() == first.View().(wm := UnixNano(first.wm)) && next.before == |next.fired|
    ensures next.assigner == assigner && next.lateness == lateness && next.reducer == reducer
  {
    next := new WindowOperator(first.codec, assigner, lateness, reducer);
    Handover(first, next);
  }

  /** Run on to the end of the input. */
  method RunRest(next: WindowOperator, xs: seq<Item>) returns (ghost vs: seq<Event>, ghost p: seq<Slot>, ghost end: State)
    requires next.Valid() && next.before == |next.fired| && Numbered(next.lateness, next.wm, |next.accepted|, xs)
    modifies next
    ensures Carries(vs, xs) && Ends(next.assigner, next.lateness, old(next.View()), vs, p, end)
    ensures next.fired == end.fired && next.before == |old(next.fired)| <= |end.fired| && end.fired[..next.before] == old(next.fired)
    ensures next.out == EmitAll(next.reducer, end.fired[next.before..])
  {
    vs := Drive(next, xs);
    ghost var s := next.View();
    p := next.FlushRemaining();
    end := next.View();
    Prefixed(s.fired, FireAll(s.open, p), next.before);
  }

  lemma Prefixed<T>(a: seq<T>, b: seq<T>, n: nat)
    requires n <= |a|
    ensures (a + b)[..n] == a[..n]
  {
  }

  lemma Together(a: Assigner, lateness: nat, xs: seq<Item>, cut: nat, es: seq<Event>, o: seq<Slot>, whole: State,
                 us: seq<Event>, mid: State, vs: seq<Event>, p: seq<Slot>, resumed: State)
    requires cut <= |xs| && Carries(es, xs) && Ends(a, lateness, Init(), es, o, whole)
    requires Carries(us, xs[..cut]) && Exec(a, lateness, Init(), us) == Some(mid) && Survives(lateness, mid.wm, xs[cut..])
    requires Carries(vs, xs[cut..]) && Ends(a, lateness, mid.(wm := UnixNano(mid.wm)), vs, p, resumed)
    requires |mid.fired| <= |resumed.fired| && resumed.fired[..|mid.fired|] == mid.fired
    ensures Tally(a, whole.fired) == Tally(a, mid.fired) + Tally(a, resumed.fired[|mid.fired|..])
  {
    SnapshotTransparent(a, lateness, xs, cut, es, o, whole, us, mid, vs, p, resumed);
    TallySplit(a, resumed.fired, |mid.fired|);
  }

  lemma TallySplit(a: Assigner, fs: seq<Fired>, n: nat)
    requires n <= |fs|
    ensures Tally(a, fs) == Tally(a, fs[..n]) + Tally(a, fs[n..])
  {
    var xs, ys := fs[..n], fs[n..];
    assert fs == xs + ys;
    TallyConcat(a, xs, ys);
  }

  /** What has fired after the items `xs`. */
  ghost predicate FiredBy(a: Assigner, lateness: nat, xs: seq<Item>, fs: seq<Fired>) {
    exists es: seq<Event>, s: State :: Carries(es, xs) && Exec(a, lateness, Init(), es) == Some(s) && s.fired == fs
  }

  /** What has fired after the items `xs` and the end of the input. */
  ghost predicate FiredInAll(a: Assigner, lateness: nat, xs: seq<Item>, fs: seq<Fired>) {
    exists es: seq<Event>, o: seq<Slot>, end: State :: Carries(es, xs) && Ends(a, lateness, Init(), es, o, end) && end.fired == fs
  }

  /** Stop after `cut` items and go on from the snapshot in a fresh operator. */
  method RunCut(codec: Codec, assigner: Assigner, lateness: nat, reducer: Option<Reducer>, xs: seq<Item>, cut: nat)
    returns (first: WindowOperator, next: WindowOperator,
             ghost us: seq<Event>, ghost mid: State, ghost vs: seq<Event>, ghost p: seq<Slot>, ghost end: State)
    requires Faithful(codec) && cut <= |xs| && Numbered(lateness, ZERO_TIME, 0, xs) && Survives(lateness, WmAt(ZERO_TIME, xs[..cut]), xs[cut..])
    ensures Carries(us, xs[..cut]) && Exec(assigner, lateness, Init(), us) == Some(mid) && mid.wm == WmAt(ZERO_TIME, xs[..cut])
    ensures Carries(vs, xs[cut..]) && Ends(assigner, lateness, mid.(wm := UnixNano(mid.wm)), vs, p, end)
    ensures |mid.fired| <= |end.fired| && end.fired[..|mid.fired|] == mid.fired
    ensures first.out == EmitAll(reducer, mid.fired) && next.out == EmitAll(reducer, end.fired[|mid.fired|..])
  {
    NumberedSplit(lateness, ZERO_TIME, 0, xs, cut);
    first, us, mid := RunFirst(codec, assigner, lateness, reducer, xs[..cut]);
    next := Continue(first, assigner, lateness, reducer);
    RestNumbered(lateness, mid, xs[cut..]);
    vs, p, end := RunRest(next, xs[cut..]);
  }

  /** What one operator emits on `xs` is, firing by firing, what two emit that share it at `cut`. */
  ghost predicate Transparent(a: Assigner, lateness: nat, reducer: Option<Reducer>, xs: seq<Item>, cut: nat,
                              whole: seq<Emission>, first: seq<Emission>, next: seq<Emission>)
    requires cut <= |xs|
  {
    exists all: seq<Fired>, before: seq<Fired>, after: seq<Fired> ::
      && whole == EmitAll(reducer, all) && FiredInAll(a, lateness, xs, all)
      && first == EmitAll(reducer, before) && FiredBy(a, lateness, xs[..cut], before)
      && next == EmitAll(reducer, after)
      && Tally(a, all) == Tally(a, before) + Tally(a, after)
  }

  /**
    An operator that runs to the end, and one that is stopped after `cut` items and continued from
    its snapshot in a fresh operator: together the two parts fire what the one run fires.
   */
  method Interrupted(codec: Codec, assigner: Assigner, lateness: nat, reducer: Option<Reducer>, xs: seq<Item>, cut: nat)
    returns (whole: seq<Emission>, first: seq<Emission>, next: seq<Emission>)
    requires Faithful(codec) && cut <= |xs| && Numbered(lateness, ZERO_TIME, 0, xs) && Survives(lateness, WmAt(ZERO_TIME, xs[..cut]), xs[cut..])
    ensures Transparent(assigner, lateness, reducer, xs, cut, whole, first, next)
  {
    ghost var es, o, end, us, mid, vs, p, resumed;
    var op, op1, op2;
    op, es, o, end := RunWhole(codec, assigner, lateness, reducer, xs);
    whole := op.out;
    op1, op2, us, mid, vs, p, resumed := RunCut(codec, assigner, lateness, reducer, xs, cut);
    first, next := op1.out, op2.out;
    Together(assigner, lateness, xs, cut, es, o, end, us, mid, vs, p, resumed);
    assert FiredInAll(assigner, lateness, xs, end.fired) && FiredBy(assigner, lateness, xs[..cut], mid.fired);
    assert Transparent(assigner, lateness, reducer, xs, cut, whole, first, next);
  }
}
