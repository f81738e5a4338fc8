/** The window operator over values. */
module Windows {
  // The window operator over values: which windows are open with which records, the watermark, and
  // what has fired. A backend lists its keys in no particular order, so every step that walks over
  // keys takes the order as part of its label.

  import opened Prelude
  import opened WindowAssign

  /** A data record; `n` is its arrival number, which the operator never looks at. */
  datatype Rec = Rec(key: string, ts: int, value: Bytes, n: nat)

  /** One window of one key. */
  datatype Slot = Slot(key: string, win: Win)

  datatype Assigner = Fixed(assign: int -> seq<Win>) | Sessions(gap: int)

  datatype Fired = Fired(slot: Slot, recs: seq<Rec>)

  datatype State = State(
    open: map<Slot, seq<Rec>>, wm: int, fired: seq<Fired>,
    accepted: seq<Rec>   // history: the records that were not too late
  )

  function Init(): State { State(map[], ZERO_TIME, [], []) }

  datatype Event = Record(r: Rec, order: seq<Slot>) | Watermark(t: int, order: seq<Slot>)

  /** `order` lists the elements of `s`, each once. */
  ghost predicate Lists<T>(order: seq<T>, s: set<T>) {
    && (forall i :: 0 <= i < |order| ==> order[i] in s)
    && (forall x :: x in s ==> x in order)
    && NoDup(order)
  }

  lemma {:induction false} Listing<T>(s: set<T>) returns (order: seq<T>)
    ensures Lists(order, s)
    decreases |s|
  {
    if s == {} {
      order := [];
    } else {
      var x :| x in s;
      order := Listing(s - {x});
      order := order + [x];
    }
  }

  predicate TooLate(lateness: nat, wm: int, ts: int) {
    wm != ZERO_TIME && ts < wm - lateness
  }

  function Get(open: map<Slot, seq<Rec>>, k: Slot): seq<Rec> {
    if k in open then open[k] else []
  }

  function Append(open: map<Slot, seq<Rec>>, k: Slot, recs: seq<Rec>): map<Slot, seq<Rec>> {
    open[k := Get(open, k) + recs]
  }

  // Stored keys and stored records carry their times as int64 nanoseconds.

  function Wrap(w: Win): Win { Win(UnixNano(w.start), UnixNano(w.end)) }

  function WrapAll(wins: seq<Win>): (ws: seq<Win>)
    ensures |ws| == |wins| && forall i :: 0 <= i < |wins| ==> ws[i] == Wrap(wins[i])
  {
    if wins == [] then [] else WrapAll(wins[..|wins| - 1]) + [Wrap(wins[|wins| - 1])]
  }

  /** The stored copy of a record. */
  function Kept(r: Rec): (k: Rec)
    ensures k.key == r.key && k.value == r.value && k.n == r.n && (Fits(r.ts) ==> k == r)
  {
    r.(ts := UnixNano(r.ts))
  }

  function KeptAll(rs: seq<Rec>): (ks: seq<Rec>)
    ensures |ks| == |rs| && forall i :: 0 <= i < |rs| ==> ks[i] == Kept(rs[i])
  {
    if rs == [] then [] else KeptAll(rs[..|rs| - 1]) + [Kept(rs[|rs| - 1])]
  }

  /** A record goes to each of its fixed windows in turn. */
  function PlaceAll(open: map<Slot, seq<Rec>>, wins: seq<Win>, r: Rec): map<Slot, seq<Rec>> {
    if wins == [] then open
    else Append(PlaceAll(open, wins[..|wins| - 1], r), Slot(r.key, wins[|wins| - 1]), [r])
  }

  /** The open sessions of `key` that overlap `w`. */
  function Touching(open: map<Slot, seq<Rec>>, key: string, w: Win): set<Slot> {
    set k | k in open && k.key == key && k.win.Overlaps(w)
  }

  function Hull(order: seq<Slot>, w: Win): Win {
    if order == [] then w
    else
      var h, e := Hull(order[..|order| - 1], w), order[|order| - 1].win;
      Win(if e.start < h.start then e.start else h.start, if e.end > h.end then e.end else h.end)
  }

  function Gather(open: map<Slot, seq<Rec>>, order: seq<Slot>): seq<Rec> {
    if order == [] then [] else Gather(open, order[..|order| - 1]) + Get(open, order[|order| - 1])
  }

  function Keys(order: seq<Slot>): set<Slot> { set k | k in order }

  /** A record joins every session it overlaps, listed in `order`, into one; without any it starts a session. */
  function PlaceSession(open: map<Slot, seq<Rec>>, w: Win, r: Rec, order: seq<Slot>): map<Slot, seq<Rec>> {
    if order == [] then Append(open, Slot(r.key, Wrap(w)), [r])
    else Append(open - Keys(order), Slot(r.key, Wrap(Hull(order, w))), Gather(open, order) + [r])
  }

  function Due(open: map<Slot, seq<Rec>>, wm: int, lateness: nat): set<Slot> {
    set k | k in open && k.win.end + lateness <= wm
  }

  function FireAll(open: map<Slot, seq<Rec>>, order: seq<Slot>): (f: seq<Fired>)
    ensures |f| == |order| && forall i :: 0 <= i < |order| ==> f[i] == Fired(order[i], Get(open, order[i]))
  {
    if order == [] then [] else FireAll(open, order[..|order| - 1]) + [Fired(order[|order| - 1], Get(open, order[|order| - 1]))]
  }

  function Close(s: State, order: seq<Slot>): State {
    s.(open := s.open - Keys(order), fired := s.fired + FireAll(s.open, order))
  }

  /**
    One input item; arrival numbers count the accepted records. A record is judged late, assigned and
    compared with open sessions by its own time, and stored under int64 times.
   */
  ghost function Step(a: Assigner, lateness: nat, s: State, e: Event): Option<State> {
    match e
    case Record(r, order) =>
      if TooLate(lateness, s.wm, r.ts) then Some(s)
      else if r.n != |s.accepted| then None
      else if a.Fixed? then Some(s.(open := PlaceAll(s.open, WrapAll(a.assign(r.ts)), Kept(r)), accepted := s.accepted + [r]))
      else if Lists(order, Touching(s.open, r.key, Session(r.ts, a.gap)[0])) then
        Some(s.(open := PlaceSession(s.open, Session(r.ts, a.gap)[0], Kept(r), order), accepted := s.accepted + [r]))
      else None
    case Watermark(t, order) =>
      var s1 := s.(wm := if t > s.wm then t else s.wm);
      if Lists(order, Due(s.open, s1.wm, lateness)) then Some(Close(s1, order)) else None
  }

  ghost function Exec(a: Assigner, lateness: nat, s: State, es: seq<Event>): Option<State> {
    if es == [] then Some(s)
    else
      match Exec(a, lateness, s, es[..|es| - 1])
      case None => None
      case Some(t) => Step(a, lateness, t, es[|es| - 1])
  }

  lemma Extend(a: Assigner, lateness: nat, es: seq<Event>, s: State, e: Event, s': State)
    requires Exec(a, lateness, Init(), es) == Some(s) && Step(a, lateness, s, e) == Some(s')
    ensures Exec(a, lateness, Init(), es + [e]) == Some(s')
  {
    assert (es + [e])[..|es|] == es;
  }

  /** The end of the input: every open window fires. */
  ghost function Flush(s: State, order: seq<Slot>): Option<State> {
    if Lists(order, s.open.Keys) then Some(Close(s, order)) else None
  }

  /** Every record of the input has one of these event times. */
  ghost predicate Over(es: seq<Event>, times: iset<int>) {
    forall i :: 0 <= i < |es| && es[i].Record? ==> es[i].r.ts in times
  }

  // ---- What a window emits when it fires --------------------------------------------------

  type Reducer = (Option<Bytes>, Rec) -> Bytes

  /** A record or aggregate sent downstream, tagged with its window. */
  datatype Emission = Emission(key: string, value: Bytes, ts: int, win: Win)

  function Fold(f: Reducer, recs: seq<Rec>): Option<Bytes> {
    if recs == [] then None else Some(f(Fold(f, recs[..|recs| - 1]), recs[|recs| - 1]))
  }

  lemma {:induction false} FoldIsFoldl(f: Reducer, recs: seq<Rec>)
    ensures Fold(f, recs) == Foldl(f, None, recs)
  {
    if recs != [] {
      var rest, r := recs[..|recs| - 1], recs[|recs| - 1];
      assert recs == rest + [r];
      FoldIsFoldl(f, rest);
      FoldlAppend(f, None, rest, r);
    }
  }

  function Each(recs: seq<Rec>, w: Win): (es: seq<Emission>)
    ensures |es| == |recs| && forall i :: 0 <= i < |recs| ==> es[i] == Emission(recs[i].key, recs[i].value, recs[i].ts, w)
  {
    if recs == [] then []
    else
      var r := recs[|recs| - 1];
      Each(recs[..|recs| - 1], w) + [Emission(r.key, r.value, r.ts, w)]
  }

  /** Without a reducer every record; with one a single aggregate, the fold in stored order. */
  function Emit(reducer: Option<Reducer>, f: Fired): seq<Emission> {
    if reducer.None? then Each(f.recs, f.slot.win)
    else if f.recs == [] then []
    else
      var last := f.recs[|f.recs| - 1];
      [Emission(last.key, Fold(reducer.value, f.recs).value, last.ts, f.slot.win)]
  }

  function EmitAll(reducer: Option<Reducer>, fs: seq<Fired>): seq<Emission> {
    if fs == [] then [] else EmitAll(reducer, fs[..|fs| - 1]) + Emit(reducer, fs[|fs| - 1])
  }
}
