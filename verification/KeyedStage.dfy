/** A keyed stage running Reduce in parallel workers. */
module KeyedStage {
  // A keyed stage running Reduce: the barrier injector ahead of it, the hash router, one worker per
  // partition with its own clone of the operator, and the aligned merge. Every step a goroutine can
  // take on its own is a step here.

  import opened Prelude
  import opened AlignedMerge

  const FNV_OFFSET: bv32 := 2166136261
  const FNV_PRIME: bv32 := 16777619

  /** 32-bit FNV-1a (draft-eastlake-fnv, section 2). */
  function Fnv(key: Bytes): bv32 {
    if key == [] then FNV_OFFSET
    else FnvStep(Fnv(key[..|key| - 1]), key[|key| - 1])
  }

  function FnvStep(h: bv32, b: byte): bv32 {
    (h ^ (b as bv32)) * FNV_PRIME
  }

  function Route(key: Bytes, partitions: nat): (w: nat)
    ensures partitions >= 1 ==> w < partitions
  {
    if key == [] || partitions <= 1 then 0 else Fnv(key) as nat % partitions
  }

  lemma FnvNext(key: Bytes, b: byte, h: bv32, next: bv32, whole: Bytes)
    requires Fnv(key) == h && FnvStep(h, b) == next && whole == key + [b]
    ensures Fnv(whole) == next
  {
    assert whole[..|key|] == key;
  }

  /** The published test vectors for "", "a" and "foobar". */
  lemma FnvVectors()
    ensures Fnv([]) == 0x811c9dc5 && Fnv([97]) == 0xe40c292c && Fnv([102, 111, 111, 98, 97, 114]) == 0xbf9cf968
  {
    FnvNext([], 97, 0x811c9dc5, 0xe40c292c, [97]);
    Foobar();
  }

  lemma Foobar()
    ensures Fnv([102, 111, 111, 98, 97, 114]) == 0xbf9cf968
  {
    FnvNext([], 102, 0x811c9dc5, 0xe30c2799, [102]);
    FnvNext([102], 111, 0xe30c2799, 0x6222e842, [102, 111]);
    FnvNext([102, 111], 111, 0x6222e842, 0xa9f37ed7, [102, 111, 111]);
    FnvNext([102, 111, 111], 98, 0xa9f37ed7, 0x3f5076ef, [102, 111, 111, 98]);
    FnvNext([102, 111, 111, 98], 97, 0x3f5076ef, 0x39aaa18a, [102, 111, 111, 98, 97]);
    FnvNext([102, 111, 111, 98, 97], 114, 0x39aaa18a, 0xbf9cf968, [102, 111, 111, 98, 97, 114]);
  }

  /** The byte is mixed in ahead of the multiplication: one that equals the low byte of the hash clears it. */
  lemma MixedFirst(h: bv32, b: byte)
    requires h & 0xff == b as bv32
    ensures FnvStep(h, b) & 0xff == 0
  {
    ClearedTimes(h ^ (b as bv32));
  }

  lemma ClearedTimes(x: bv32)
    requires x & 0xff == 0
    ensures (x * FNV_PRIME) & 0xff == 0
  {
  }

  /** A key without bytes and a single partition route to 0, any other key to its hash modulo the partitions. */
  lemma RouteVectors()
    ensures Route([], 7) == 0 && Route([97], 1) == 0
    ensures Route([97], 4) == 0 && Route([97], 1000) == 0xe40c292c % 1000 && Route([102, 111, 111, 98, 97, 114], 1000) == 0xbf9cf968 % 1000
  {
    FnvVectors();
  }

  method RouteKey(key: Bytes, partitions: nat) returns (w: nat)
    ensures w == Route(key, partitions)
  {
    if |key| == 0 || partitions <= 1 {
      return 0;
    }
    var h := FNV_OFFSET;
    for i := 0 to |key|
      invariant h == Fnv(key[..i])
    {
      assert key[..i + 1][..i] == key[..i];
      h := FnvStep(h, key[i]);
    }
    assert key[..|key|] == key;
    return h as nat % partitions;
  }

  /** A source record and where it was read from. */
  datatype Rec = Rec(part: nat, off: nat, value: Bytes)

  /** What Reduce emits: the record's key and the new accumulator of its state key. */
  datatype Res = Res(key: Bytes, acc: Bytes)

  datatype Mark = Barrier(id: nat) | Watermark(time: int)

  type In = Item<Rec, Mark>
  type Out = Item<Res, Mark>

  /**
    A stage: its number of workers, the key selector, the state key of a record, the record key
    that a state key belongs to, and the reduce function. Without window headers the state key is
    the record key; with them it carries the window behind the key, from which the key is read back.
   */
  datatype Stage = Stage(n: nat, sel: Rec -> Bytes, slot: Rec -> Bytes, own: Bytes -> Bytes, fn: (Option<Bytes>, Rec) -> Bytes) {
    ghost predicate Valid() { n >= 1 && forall r :: own(slot(r)) == sel(r) }

    function Of(r: Rec): nat { Route(sel(r), n) }

    /** The worker that holds the accumulator of a state key. */
    function Holder(k: Bytes): nat { Route(own(k), n) }
  }

  // ---- One sequential Reduce ----------------------------------------------------------

  function Lookup(m: map<Bytes, Bytes>, k: Bytes): Option<Bytes> {
    if k in m then Some(m[k]) else None
  }

  function OnItem(c: Stage, state: map<Bytes, Bytes>, x: In): map<Bytes, Bytes> {
    if x.Data? then state[c.slot(x.d) := c.fn(Lookup(state, c.slot(x.d)), x.d)] else state
  }

  function Result(c: Stage, state: map<Bytes, Bytes>, x: In): Out {
    if x.Data? then Data(Res(c.sel(x.d), c.fn(Lookup(state, c.slot(x.d)), x.d))) else Marker(x.m)
  }

  /** The accumulators after the items `s`. */
  function SeqState(c: Stage, s: seq<In>): map<Bytes, Bytes> {
    if s == [] then map[] else OnItem(c, SeqState(c, s[..|s| - 1]), s[|s| - 1])
  }

  /** The output on the items `s`, markers included. */
  function SeqOut(c: Stage, s: seq<In>): (r: seq<Out>)
    ensures |r| == |s|
  {
    if s == [] then [] else SeqOut(c, s[..|s| - 1]) + [Result(c, SeqState(c, s[..|s| - 1]), s[|s| - 1])]
  }

  /** The source positions behind the items `s`: one past the last record of each partition. */
  function Positions(s: seq<In>): map<nat, nat> {
    if s == [] then map[]
    else
      var x := s[|s| - 1];
      if x.Data? then Positions(s[..|s| - 1])[x.d.part := x.d.off + 1] else Positions(s[..|s| - 1])
  }

  /** The results of key `k`, and every marker. */
  function KeyItems(s: seq<Out>, k: Bytes): seq<Out> {
    if s == [] then []
    else KeyItems(s[..|s| - 1], k) + if s[|s| - 1].Marker? || s[|s| - 1].d.key == k then [s[|s| - 1]] else []
  }

  function Untag(q: seq<Tagged<Res, Mark>>): seq<Out> {
    if q == [] then [] else Untag(q[..|q| - 1]) + [q[|q| - 1].x]
  }

  // ---- The parallel stage ---------------------------------------------------------------

  /** A worker: everything its input channel was sent, how much of it is processed, and its accumulators. */
  datatype Clone = Clone(input: seq<In>, done: nat, state: map<Bytes, Bytes>)

  datatype Topology = Topology(
    input: seq<In>, offsets: map<nat, nat>, barriers: nat, registered: map<nat, map<nat, nat>>,
    ended: bool, routed: nat, sentTo: nat,
    clones: seq<Clone>, snaps: map<(nat, nat), map<Bytes, Bytes>>,
    merge: AlignedMerge.State<Res, Mark>,
    at: map<nat, nat>   // history: where each barrier stands in `input`
  )

  ghost predicate Start(c: Stage, s: Topology) {
    && s.input == [] && s.offsets == map[] && s.barriers == 0 && s.registered == map[] && !s.ended && s.routed == 0 && s.sentTo == 0
    && |s.clones| == c.n && (forall w :: 0 <= w < c.n ==> s.clones[w] == Clone([], 0, map[]))
    && s.snaps == map[] && AlignedMerge.Initial(s.merge) && |s.merge.ws| == c.n && s.at == map[]
  }

  datatype Move =
    | InjectRecord(r: Rec) | InjectWatermark(time: int) | InjectBarrier | EndInput
    | RouteOne | Work(w: nat) | CloseWorker(w: nat)
    | MergeStep(l: AlignedMerge.Label<Res, Mark>)

  /** The injector: it advances a partition's position before forwarding its record. */
  function Inject(s: Topology, l: Move): Topology
    requires Injects(l)
  {
    match l
    case InjectRecord(r) => s.(input := s.input + [Data(r)], offsets := s.offsets[r.part := r.off + 1])
    case InjectWatermark(t) => s.(input := s.input + [Marker(Watermark(t))])
    case InjectBarrier =>
      var id := s.barriers + 1;
      s.(barriers := id, registered := s.registered[id := s.offsets], at := s.at[id := |s.input|],
         input := s.input + [Marker(Barrier(id))])
  }

  /** The router sends a record to the worker of its key, and a marker to one worker after the other. */
  function Dispatch(c: Stage, s: Topology): Option<Topology> {
    if s.routed >= |s.input| || |s.clones| != c.n then None
    else
      var x := s.input[s.routed];
      var w := if x.Data? then c.Of(x.d) else s.sentTo;
      if w >= c.n then None
      else
        var s1 := s.(clones := s.clones[w := s.clones[w].(input := s.clones[w].input + [x])]);
        if x.Data? || s.sentTo + 1 == c.n then Some(s1.(routed := s.routed + 1, sentTo := 0))
        else Some(s1.(sentTo := s.sentTo + 1))
  }

  /** Worker `w` processes one item: it snapshots at a barrier, and sends its result to the merge. */
  function Process(c: Stage, s: Topology, w: nat): Option<Topology> {
    if w >= |s.clones| || w >= |s.merge.ws| || s.clones[w].done >= |s.clones[w].input| || s.merge.ws[w].closed then None
    else
      var k := s.clones[w];
      var x := k.input[k.done];
      var y := Result(c, k.state, x);
      Some(s.(
        clones := s.clones[w := k.(done := k.done + 1, state := OnItem(c, k.state, x))],
        snaps := if x.Marker? && x.m.Barrier? then s.snaps[(w, x.m.id) := k.state] else s.snaps,
        merge := s.merge.(ws := s.merge.ws[w := s.merge.ws[w].(out := s.merge.ws[w].out + [y])])))
  }

  /** Worker `w` has been sent everything there will be, and has processed it. */
  predicate AllDone(s: Topology, w: nat)
    requires w < |s.clones|
  {
    s.ended && s.routed == |s.input| && s.sentTo == 0 && s.clones[w].done == |s.clones[w].input|
  }

  /** The end of a worker's input closes its output. */
  function Shut(s: Topology, w: nat): Option<Topology> {
    if w < |s.clones| && w < |s.merge.ws| && AllDone(s, w) && !s.merge.ws[w].closed then
      Some(s.(merge := s.merge.(ws := s.merge.ws[w := s.merge.ws[w].(closed := true)])))
    else None
  }

  predicate Injects(l: Move) { l.InjectRecord? || l.InjectWatermark? || l.InjectBarrier? }

  ghost function Next(c: Stage, cap: nat, s: Topology, l: Move): Option<Topology> {
    match l
    case RouteOne => Dispatch(c, s)
    case Work(w) => Process(c, s, w)
    case CloseWorker(w) => Shut(s, w)
    case EndInput => if s.ended then None else Some(s.(ended := true))
    case MergeStep(m) =>
      if m.Emit? || m.Close? then None
      else (
        match AlignedMerge.Step(cap, s.merge, m)
        case None => None
        case Some(t) => Some(s.(merge := t)))
    case _ => if s.ended then None else Some(Inject(s, l))
  }

  ghost function Run(c: Stage, cap: nat, s: Topology, ls: seq<Move>): Option<Topology> {
    if ls == [] then Some(s)
    else
      match Run(c, cap, s, ls[..|ls| - 1])
      case None => None
      case Some(t) => Next(c, cap, t, ls[|ls| - 1])
  }
}
