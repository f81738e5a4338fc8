/** When a window snapshot is transparent. */
module WindowRestoreLimits {
  import opened Prelude
  import opened WindowAssign
  import opened Windows
  import opened WindowReplay
  import opened WindowRestore

  /** An input `xs`, run through in `es` and `o`, and run up to `cut` in `us`, restored, and run on in `vs` and `p`. */
  datatype CutRun = CutRun(xs: seq<Item>, cut: nat, es: seq<Event>, o: seq<Slot>, whole: State,
                           us: seq<Event>, mid: State, vs: seq<Event>, p: seq<Slot>, resumed: State)

  ghost predicate IsCut(a: Assigner, lateness: nat, c: CutRun) {
    && c.cut <= |c.xs| && Carries(c.es, c.xs) && Ends(a, lateness, Init(), c.es, c.o, c.whole)
    && Carries(c.us, c.xs[..c.cut]) && Exec(a, lateness, Init(), c.us) == Some(c.mid)
    && Carries(c.vs, c.xs[c.cut..]) && Ends(a, lateness, c.mid.(wm := UnixNano(c.mid.wm)), c.vs, c.p, c.resumed)
  }

  /** The same firings, each as often, and the same records accepted. */
  ghost predicate Agrees(a: Assigner, c: CutRun) {
    Tally(a, c.whole.fired) == Tally(a, c.resumed.fired) && c.whole.accepted == c.resumed.accepted
  }

  /** Every input cut at watermark `wm` can be continued from its snapshot. */
  ghost predicate AlwaysTransparent(a: Assigner, lateness: nat, wm: int) {
    forall c: CutRun :: IsCut(a, lateness, c) && c.mid.wm == wm ==> Agrees(a, c)
  }

  /** Records of these times, and watermarks later than 1754. */
  ghost predicate RestOver(times: iset<int>, xs: seq<Item>) {
    forall i :: 0 <= i < |xs| ==> if xs[i].Data? then xs[i].r.ts in times else xs[i].t > UNSET
  }

  /** The same for inputs cut before any watermark and going on with records of these times. */
  ghost predicate UnsetTransparent(a: Assigner, lateness: nat, times: iset<int>) {
    forall c: CutRun :: IsCut(a, lateness, c) && c.mid.wm == ZERO_TIME && RestOver(times, c.xs[c.cut..]) ==> Agrees(a, c)
  }

  lemma CutAgrees(a: Assigner, lateness: nat, c: CutRun)
    requires IsCut(a, lateness, c) && Survives(lateness, c.mid.wm, c.xs[c.cut..])
    ensures Agrees(a, c)
  {
    SnapshotTransparent(a, lateness, c.xs, c.cut, c.es, c.o, c.whole, c.us, c.mid, c.vs, c.p, c.resumed);
  }

  // ---- A record that one of the two runs drops ------------------------------------------------------

  /** A first record, and the end of the input. */
  lemma OneRecord(a: Assigner, lateness: nat, s: State, r: Rec) returns (o: seq<Slot>, end: State)
    requires s.open == map[] && s.accepted == [] && r.n == 0
    ensures Ends(a, lateness, s, [Record(r, [])], o, end)
    ensures end.accepted == if TooLate(lateness, s.wm, r.ts) then [] else [r]
  {
    var e := Record(r, []);
    assert [e][..0] == [] && Exec(a, lateness, s, []) == Some(s);
    assert a.Sessions? ==> Touching(s.open, r.key, Session(r.ts, a.gap)[0]) == {};
    var t := Step(a, lateness, s, e).value;
    assert Exec(a, lateness, s, [e]) == Some(t);
    o := Listing(t.open.Keys);
    end := Flush(t, o).value;
  }

  /** The state behind a first watermark, if there is one. */
  lemma OneMark(a: Assigner, lateness: nat, wm: int) returns (xs: seq<Item>, us: seq<Event>)
    requires wm >= ZERO_TIME
    ensures Carries(us, xs) && Exec(a, lateness, Init(), us) == Some(Init().(wm := wm))
  {
    xs, us := [], [];
    if wm > ZERO_TIME {
      xs, us := [Mark(wm)], [Watermark(wm, [])];
      assert us[..0] == [] && Exec(a, lateness, Init(), []) == Some(Init());
      MarkOnly(a, lateness, wm);
    }
  }

  lemma MarkOnly(a: Assigner, lateness: nat, wm: int)
    requires wm > ZERO_TIME
    ensures Step(a, lateness, Init(), Watermark(wm, [])) == Some(Init().(wm := wm))
  {
    var s1 := Init().(wm := wm);
    assert Due(s1.open, wm, lateness) == {} && Lists([], Due(s1.open, wm, lateness));
    assert s1.open - Keys([]) == s1.open && s1.fired + FireAll(s1.open, []) == s1.fired;
    assert Close(s1, []) == s1;
  }

  /** The two runs of one item `x` behind the items `xs`. */
  lemma OneMore(a: Assigner, lateness: nat, xs: seq<Item>, us: seq<Event>, mid: State, x: Item, e: Event,
                o: seq<Slot>, whole: State, p: seq<Slot>, resumed: State) returns (c: CutRun)
    requires Carries(us, xs) && Exec(a, lateness, Init(), us) == Some(mid) && Is(e, x)
    requires Ends(a, lateness, mid, [e], o, whole) && Ends(a, lateness, mid.(wm := UnixNano(mid.wm)), [e], p, resumed)
    ensures IsCut(a, lateness, c) && c.xs[c.cut..] == [x] && c.mid == mid && c.whole == whole && c.resumed == resumed
  {
    ExecConcat(a, lateness, Init(), us, [e]);
    c := CutRun(xs + [x], |xs|, us + [e], o, whole, us, mid, [e], p, resumed);
    assert c.xs[..c.cut] == xs && c.xs[c.cut..] == [x];
  }

  /** A record that is late behind one of the two watermarks, and not behind the other, tells the runs apart. */
  lemma DroppedOnce(a: Assigner, lateness: nat, wm: int, ts: int) returns (c: CutRun)
    requires wm >= ZERO_TIME && TooLate(lateness, wm, ts) != TooLate(lateness, UnixNano(wm), ts)
    ensures IsCut(a, lateness, c) && c.mid.wm == wm && c.xs[c.cut..] == [Data(Rec("", ts, [], 0))] && !Agrees(a, c)
  {
    var r := Rec("", ts, [], 0);
    var mid := Init().(wm := wm);
    var xs, us := OneMark(a, lateness, wm);
    var o, whole := OneRecord(a, lateness, mid, r);
    var p, resumed := OneRecord(a, lateness, mid.(wm := UnixNano(wm)), r);
    c := OneMore(a, lateness, xs, us, mid, Data(r), Record(r, []), o, whole, p, resumed);
  }

  /** Every input cut at `wm` can be continued from its snapshot if and only if `wm` fits an int64. */
  lemma TransparentIff(a: Assigner, lateness: nat, wm: int)
    requires wm >= ZERO_TIME
    ensures AlwaysTransparent(a, lateness, wm) <==> Fits(wm)
  {
    if Fits(wm) {
      forall c: CutRun | IsCut(a, lateness, c) && c.mid.wm == wm ensures Agrees(a, c) {
        CutAgrees(a, lateness, c);
      }
    } else {
      var n := UnixNano(wm);
      var c := DroppedOnce(a, lateness, wm, (if wm < n then wm else n) - lateness - (if wm == ZERO_TIME then 1 else 0));
    }
  }

  /** An input cut before any watermark can be continued if and only if no later record is from before 1754, allowing for lateness. */
  lemma UnsetTransparentIff(a: Assigner, lateness: nat, times: iset<int>)
    ensures UnsetTransparent(a, lateness, times) <==> forall t :: t in times ==> t >= UNSET - lateness
  {
    if t :| t in times && t < UNSET - lateness {
      var c := DroppedOnce(a, lateness, ZERO_TIME, t);
      assert RestOver(times, c.xs[c.cut..]);
    } else {
      forall c: CutRun | IsCut(a, lateness, c) && c.mid.wm == ZERO_TIME && RestOver(times, c.xs[c.cut..]) ensures Agrees(a, c) {
        CutAgrees(a, lateness, c);
      }
    }
  }
}
