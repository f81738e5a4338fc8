/** The aligned merge behind a keyed stage. */
module AlignedMerge {
  // The merge behind a keyed stage: one forwarder per worker moves records from the worker's output
  // channel into a shared fan-in channel and parks at every marker; the merge loop counts the copies
  // of a marker, emits it once all workers have delivered theirs, and then resumes the forwarders.
  //
  // Every step a goroutine can take on its own is a step here, so a run is any interleaving. A
  // channel is kept as everything ever sent on it plus how far it has been read.

  import opened Prelude

  datatype Item<D, M> = Data(d: D) | Marker(m: M)

  /** An item and the worker it came from; the merge itself never looks at the worker. */
  datatype Tagged<D, M> = Tagged(w: nat, x: Item<D, M>)

  datatype Forwarder<D, M> = Reading | Holding(x: Item<D, M>) | Parked | Finished

  datatype Worker<D, M> = Worker(
    out: seq<Item<D, M>>, closed: bool,          // the worker's output channel
    pos: nat, fwd: Forwarder<D, M>, token: bool, // its forwarder and the forwarder's resume slot
    owed: seq<Item<D, M>>                        // history: taken by the merge and not yet emitted
  )

  datatype Loop<D, M> = Receiving | Sending(v: nat, x: Item<D, M>) | Resuming(i: nat)

  datatype State<D, M> = State(
    ws: seq<Worker<D, M>>, fan: seq<Tagged<D, M>>, took: nat, arrived: nat, loop: Loop<D, M>, out: seq<Tagged<D, M>>)

  ghost predicate Initial<D, M>(s: State<D, M>) {
    && s.fan == [] && s.took == 0 && s.arrived == 0 && s.loop.Receiving? && s.out == [] && |s.ws| >= 1
    && forall w :: 0 <= w < |s.ws| ==> s.ws[w] == Worker([], false, 0, Reading, false, [])
  }

  // ---- Projections -----------------------------------------------------------------

  /** The items that came from worker `w`. */
  function Proj<D, M>(q: seq<Tagged<D, M>>, w: nat): seq<Item<D, M>> {
    if q == [] then []
    else Proj(q[..|q| - 1], w) + if q[|q| - 1].w == w then [q[|q| - 1].x] else []
  }

  /** What worker `w` should recognise in the merged output: its own data and every marker. */
  function View<D, M>(q: seq<Tagged<D, M>>, w: nat): seq<Item<D, M>> {
    if q == [] then []
    else View(q[..|q| - 1], w) + if q[|q| - 1].w == w || q[|q| - 1].x.Marker? then [q[|q| - 1].x] else []
  }

  function Marks<D, M>(s: seq<Item<D, M>>): seq<M> {
    if s == [] then []
    else Marks(s[..|s| - 1]) + if s[|s| - 1].Marker? then [s[|s| - 1].m] else []
  }

  /** The markers of a merged output. */
  function Emitted<D, M>(q: seq<Tagged<D, M>>): seq<M> {
    if q == [] then []
    else Emitted(q[..|q| - 1]) + if q[|q| - 1].x.Marker? then [q[|q| - 1].x.m] else []
  }

  ghost predicate Comparable<T>(a: seq<T>, b: seq<T>) { a <= b || b <= a }

  /** Every worker delivers the same markers in the same order, and none closes before it has delivered them all. */
  ghost predicate SameMarkers<D, M>(ws: seq<Worker<D, M>>) {
    forall v, w :: 0 <= v < |ws| && 0 <= w < |ws| ==>
      Comparable(Marks(ws[v].out), Marks(ws[w].out)) && (ws[w].closed ==> Marks(ws[v].out) <= Marks(ws[w].out))
  }

  // ---- Steps -------------------------------------------------------------------------

  datatype Label<D, M> =
    | Emit(w: nat, x: Item<D, M>) | Close(w: nat)
    | Read(w: nat) | Finish(w: nat) | Put(w: nat) | Unpark(w: nat)
    | Take | Send | Resume

  /** The workers' own steps: what the merge is given to work on. */
  ghost function Feed<D, M>(s: State<D, M>, l: Label<D, M>): Option<State<D, M>>
    requires l.Emit? || l.Close?
  {
    if l.w >= |s.ws| || s.ws[l.w].closed then None
    else
      var k := s.ws[l.w];
      var ws := s.ws[l.w := if l.Emit? then k.(out := k.out + [l.x]) else k.(closed := true)];
      if SameMarkers(ws) then Some(s.(ws := ws)) else None
  }

  function Forward<D, M>(cap: nat, s: State<D, M>, l: Label<D, M>): Option<State<D, M>>
    requires l.Read? || l.Finish? || l.Put? || l.Unpark?
  {
    if l.w >= |s.ws| then None
    else
      var k := s.ws[l.w];
      match l
      case Read(w) =>
        if k.fwd.Reading? && k.pos < |k.out| then
          Some(s.(ws := s.ws[w := k.(pos := k.pos + 1, fwd := Holding(k.out[k.pos]))]))
        else None
      case Finish(w) =>
        if k.fwd.Reading? && k.pos == |k.out| && k.closed then Some(s.(ws := s.ws[w := k.(fwd := Finished)])) else None
      case Put(w) =>
        if k.fwd.Holding? && s.took <= |s.fan| < s.took + cap then
          Some(s.(fan := s.fan + [Tagged(w, k.fwd.x)], ws := s.ws[w := k.(fwd := if k.fwd.x.Marker? then Parked else Reading)]))
        else None
      case Unpark(w) =>
        if k.fwd.Parked? && k.token then Some(s.(ws := s.ws[w := k.(fwd := Reading, token := false)])) else None
  }

  /** All workers' owed items have just been emitted. */
  function Settled<D, M>(ws: seq<Worker<D, M>>): (r: seq<Worker<D, M>>)
    ensures |r| == |ws| && forall w :: 0 <= w < |ws| ==> r[w] == ws[w].(owed := [])
  {
    if ws == [] then [] else Settled(ws[..|ws| - 1]) + [ws[|ws| - 1].(owed := [])]
  }

  function Merge<D, M>(s: State<D, M>, l: Label<D, M>): Option<State<D, M>>
    requires l.Take? || l.Send? || l.Resume?
  {
    match l
    case Take =>
      if s.loop.Receiving? && s.took < |s.fan| && s.fan[s.took].w < |s.ws| then
        var Tagged(v, x) := s.fan[s.took];
        var s1 := s.(took := s.took + 1, ws := s.ws[v := s.ws[v].(owed := s.ws[v].owed + [x])]);
        if x.Data? then Some(s1.(loop := Sending(v, x)))
        else if s.arrived + 1 < |s.ws| then Some(s1.(arrived := s.arrived + 1))
        else Some(s1.(arrived := 0, loop := Sending(v, x)))
      else None
    case Send =>
      if s.loop.Sending? && s.loop.v < |s.ws| then
        var Sending(v, x) := s.loop;
        if x.Data? then
          Some(s.(out := s.out + [Tagged(v, x)], loop := Receiving, ws := s.ws[v := s.ws[v].(owed := [])]))
        else Some(s.(out := s.out + [Tagged(v, x)], loop := Resuming(0), ws := Settled(s.ws)))
      else None
    case Resume =>
      // A send on a one-slot channel: it would block on a full slot.
      if s.loop.Resuming? && s.loop.i < |s.ws| && !s.ws[s.loop.i].token then
        var i := s.loop.i;
        Some(s.(ws := s.ws[i := s.ws[i].(token := true)], loop := if i + 1 < |s.ws| then Resuming(i + 1) else Receiving))
      else None
  }

  ghost function Step<D, M>(cap: nat, s: State<D, M>, l: Label<D, M>): Option<State<D, M>> {
    if l.Emit? || l.Close? then Feed(s, l)
    else if l.Read? || l.Finish? || l.Put? || l.Unpark? then Forward(cap, s, l)
    else Merge(s, l)
  }

  ghost function Exec<D, M>(cap: nat, s: State<D, M>, ls: seq<Label<D, M>>): Option<State<D, M>> {
    if ls == [] then Some(s)
    else
      match Exec(cap, s, ls[..|ls| - 1])
      case None => None
      case Some(t) => Step(cap, t, ls[|ls| - 1])
  }
}
