/** The coordinated checkpoint protocol as a step relation. */
module ExactlyOnce {
  // Source and barrier injector, operator chain, pre-sink tap, transactional sink, finalize worker,
  // checkpoint directory, broker and crash recovery each take steps of their own. A crash is a step
  // like any other, enabled between any two of them.
  //
  // `input` and `done` keep everything that has flowed through the injector and the operators in
  // this run; the channels between the stages are the parts of them that later stages have not
  // reached yet. Fields marked "history" are never read by a step.

  import opened Prelude
  import opened CheckpointFiles

  /** The number of checkpoints whose snapshots may wait for the pre-sink tap. */
  const MAX_SNAPSHOTS := 8

  /**
    A job: the partition logs of its source, the initial operator state, and the pipeline as two
    relations "state `s` on record `r` (on watermark `t`) may move to state `s2` emitting `outs`".
    Nothing about the pipeline is assumed, not even that it is deterministic.
   */
  datatype Job = Job(
    log: seq<seq<Bytes>>, start: Bytes,
    rel: (Bytes, Bytes, Bytes, seq<Bytes>) -> bool, mark: (Bytes, int, Bytes, seq<Bytes>) -> bool, retain: nat)

  /**
    Conditions on a run, each of them the guard of one step of the code (see `Meets`), and two
    repairs of the code. With every flag off, `Step` is the code as it is written.
   */
  datatype Hyp = Hyp(
    fatalStops: bool,      // after a fatal report the finalize worker takes no further event
    settled: bool,         // a commit in flight is decided before its marker is probed
    rereads: bool,         // a barrier finds every partition with a position above 0 read in this run
    current: bool,         // recovery falls back only while the completed pointer is not behind a newer done file
    clockAdvances: bool,   // a new checkpoint is stamped later than every stored one
    snapshotsFit: bool,    // at most MAX_SNAPSHOTS checkpoints wait between operators and tap
    carriesOver: bool,     // repair: the injector's offset map starts from the restored positions
    atomicPromote: bool    // repair: a promotion is not interrupted between its file and its completed pointer
  )

  /** The conditions without which no statement about restore points is made. */
  predicate Base(h: Hyp) {
    h.fatalStops && h.settled && h.clockAdvances && h.snapshotsFit
  }

  /** Barriers carry the position of every partition. */
  predicate Covers(h: Hyp) { h.rereads || h.carriesOver }

  /** Fallbacks find the newest done checkpoint. */
  predicate Fixed(h: Hyp) { h.current || h.atomicPromote }

  predicate AllHold(h: Hyp) { Base(h) && Covers(h) && Fixed(h) }

  // ---- The reference: one uninterrupted execution ----------------------------

  /** Where an item comes from: offset `off` of partition `part`, or, for a watermark, no position at all. */
  datatype Src = Src(part: nat, off: nat) | Mark(time: int)

  predicate ReadFrom(s: Src, p: nat) { s.Src? && s.part == p }

  /** The pipeline may move on the item `s` from state `st` to `post`, emitting `outs`. */
  ghost predicate Moves(job: Job, s: Src, st: Bytes, post: Bytes, outs: seq<Bytes>) {
    match s
    case Src(part, off) => part < |job.log| && off < |job.log[part]| && job.rel(st, job.log[part][off], post, outs)
    case Mark(time) => job.mark(st, time, post, outs)
  }

  datatype Event = Event(src: Src, post: Bytes, outs: seq<Bytes>)

  type Trace = seq<Event>

  function StateAfter(job: Job, t: Trace): Bytes {
    if t == [] then job.start else t[|t| - 1].post
  }

  function Outputs(t: Trace): seq<Bytes> {
    if t == [] then [] else Outputs(t[..|t| - 1]) + t[|t| - 1].outs
  }

  function Reads(t: Trace, p: nat): nat {
    if t == [] then 0 else Reads(t[..|t| - 1], p) + (if ReadFrom(t[|t| - 1].src, p) then 1 else 0)
  }

  /** `e` may follow `t`: it is a watermark or the next unread record of its partition, and moves as the pipeline allows. */
  ghost predicate Follows(job: Job, t: Trace, e: Event) {
    (e.src.Src? ==> e.src.off == Reads(t, e.src.part)) && Moves(job, e.src, StateAfter(job, t), e.post, e.outs)
  }

  /** `t` is an execution of the pipeline without any failure, reading every partition in order from its start. */
  ghost predicate Execution(job: Job, t: Trace) {
    t == [] || (Execution(job, t[..|t| - 1]) && Follows(job, t[..|t| - 1], t[|t| - 1]))
  }

  /** Where partition `p` resumes: its stored position, or the start when the map does not hold it. */
  function Resume(offsets: map<nat, nat>, p: nat): nat {
    if p in offsets then offsets[p] else 0
  }

  /** The restore point `from` is exactly the end of execution `t`. */
  ghost predicate Selects(job: Job, from: Option<Checkpoint>, t: Trace) {
    match from
    case None => t == []
    case Some(c) => c.state == StateAfter(job, t) && forall p: nat :: Resume(c.offsets, p) == Reads(t, p)
  }

  // ---- State ----------------------------------------------------------------

  /** A record or watermark, or a barrier. */
  datatype In = Item(src: Src) | Bar(id: Id)

  /** What the operators made of one input item; barriers leave the state and emit nothing. */
  datatype Result = Result(post: Bytes, outs: seq<Bytes>)

  datatype Pending = Pending(offsets: Option<map<nat, nat>>, state: Option<Bytes>, err: bool)

  datatype Finalizer =
    | Idle
    | Aborting(id: Id)
    | Saving(c: Checkpoint, stage: Stage)
    | Ready(c: Checkpoint)
    | Ending(c: Checkpoint)
    | Promoting(c: Checkpoint, stage: Stage)

  /** Source, injector, operators and tap. */
  datatype Upstream = Upstream(
    pos: seq<nat>, offsets: map<nat, nat>, nonce: nat, count: nat, input: seq<In>,
    done: seq<Result>, state: Bytes, snaps: map<Id, Bytes>, tapped: nat,
    // history: the execution up to each processed item, the positions ahead of each input item,
    // and where each barrier stands in `input`
    cuts: seq<Trace>, seen: seq<seq<nat>>, at: map<Id, nat>
  )

  datatype Run = Run(
    up: Upstream, sunk: nat, txn: seq<Bytes>, produceErr: bool, waiting: Option<Id>,
    pending: map<Id, Pending>, events: seq<Id>, fin: Finalizer, fatal: bool
  )

  datatype Process =
    | Down
    | Probing(c: Checkpoint)
    | Completing(c: Checkpoint, stage: Stage)
    | FallingBack
    | Restoring(from: Option<Checkpoint>)
    | Running(r: Run)

  /** A transaction whose commit has been requested; `trace` is history. */
  datatype Txn = Txn(id: Id, outs: seq<Bytes>, trace: Trace)

  /** What outlives the process: checkpoint directory, broker, and the nonce of the next run. */
  datatype Env = Env(
    dir: Dir, visible: seq<Bytes>, markers: set<Id>, inflight: Option<Txn>, nonce: nat,
    trace: Trace   // history: the execution whose output is visible
  )

  datatype World = World(env: Env, proc: Process)

  function Init(): World {
    World(Env(Dir(map[], None, None), [], {}, None, 0, []), Down)
  }

  /** The execution `t` continued by one input item and what the operators made of it. */
  function Extend(t: Trace, x: In, y: Result): Trace {
    if x.Item? then t + [Event(x.src, y.post, y.outs)] else t
  }

  function Last<T>(s: seq<T>): T
    requires s != []
  {
    s[|s| - 1]
  }

  // ---- Steps ------------------------------------------------------------------

  datatype Label =
    | Load(r: Option<Checkpoint>) | RepairCompleted(r: Option<Checkpoint>) | Sweep(v: Id)
    | Probe | CompleteWrite | CompleteEvict(v: Id) | CompleteDone | FallBack(r: Option<Checkpoint>) | Launch
    | Crash | Decide(commit: bool)
    | Read(part: nat) | Pass(time: int) | Inject(suffix: Suffix)
    | OnRecord(post: Bytes, outs: seq<Bytes>) | OnBarrier(stale: Id) | Tap
    | Produce(ok: bool) | Prepare(ok: bool)
    | Take(time: int) | Write | EvictOne(v: Id) | SaveDone | SaveFail
    | Commit | CommitOk | CommitErr | AbortOk | AbortErr

  predicate Interrupted(stage: Stage) { stage.ToLatest? || stage.ToCompleted? }

  /** A promotion has rewritten its checkpoint file but not yet the completed pointer. */
  predicate MidPromotion(p: Process) {
    match p
    case Completing(_, stage) => Interrupted(stage)
    case Running(r) => r.fin.Promoting? && Interrupted(r.fin.stage)
    case _ => false
  }

  ghost predicate Later(d: Dir, time: int) {
    forall i :: Usable(d, false, i) ==> d.files[i].data.time < time
  }

  /** Recovery and environment steps; `seeded` is the repair `carriesOver`. */
  ghost function Recover(job: Job, seeded: bool, w: World, l: Label): Option<World> {
    var e, p := w.env, w.proc;
    match l
    case Load(r) =>
      if p.Down? && LoadAnswers(e.dir, r) then
        Some(World(if r.Some? then e.(dir := e.dir.(latest := Some(r.value.id))) else e,
                   if r.Some? && !r.value.Done() then Probing(r.value) else Restoring(r)))
      else None
    case RepairCompleted(r) =>
      if p.Down? && CompletedAnswers(e.dir, r) && r.Some? then
        Some(w.(env := e.(dir := e.dir.(completed := Some(r.value.id)))))
      else None
    case Sweep(v) =>
      if p.Down? && Evictable(e.dir, job.retain, v) then Some(w.(env := e.(dir := Evict(e.dir, v)))) else None
    case Probe =>
      if p.Probing? then
        Some(w.(proc := if p.c.id in e.markers then Completing(p.c.(status := Completed), ToFile) else FallingBack))
      else None
    case CompleteWrite =>
      if p.Completing? && !p.stage.ToRetain? then
        Some(World(e.(dir := SaveWrite(e.dir, p.c, p.stage)), Completing(p.c, NextStage(p.c, p.stage))))
      else None
    case CompleteEvict(v) =>
      if p.Completing? && p.stage.ToRetain? && Evictable(e.dir, job.retain, v) then
        Some(w.(env := e.(dir := Evict(e.dir, v))))
      else None
    case CompleteDone =>
      if p.Completing? && p.stage.ToRetain? then Some(w.(proc := Restoring(Some(p.c)))) else None
    case FallBack(r) =>
      if p.FallingBack? && CompletedAnswers(e.dir, r) then
        Some(World(if r.Some? then e.(dir := e.dir.(completed := Some(r.value.id))) else e, Restoring(r)))
      else None
    case Launch =>
      // The producer's initialisation waits for a transaction still in flight.
      if p.Restoring? && e.inflight.None? then
        Some(World(e.(nonce := e.nonce + 1), Running(Fresh(job, seeded, p.from, e.nonce, e.trace))))
      else None
    case Crash =>
      if !p.Down? then Some(w.(proc := Down)) else None
    case Decide(commit) =>
      if e.inflight.None? then None
      else if commit then
        Some(w.(env := e.(visible := e.visible + e.inflight.value.outs, markers := e.markers + {e.inflight.value.id},
                          trace := e.inflight.value.trace, inflight := None)))
      else Some(w.(env := e.(inflight := None)))
    case _ => None
  }

  /** The positions from which the first `n` partitions resume. */
  function Restored(offsets: map<nat, nat>, n: nat): (pos: seq<nat>)
    ensures |pos| == n && forall p :: 0 <= p < n ==> pos[p] == Resume(offsets, p)
  {
    if n == 0 then [] else Restored(offsets, n - 1) + [Resume(offsets, n - 1)]
  }

  /** A run starts from a restore point; its offset map starts empty. */
  function Fresh(job: Job, seeded: bool, from: Option<Checkpoint>, nonce: nat, trace: Trace): Run {
    var stored := if from.Some? then from.value.offsets else map[];
    var pos := Restored(stored, |job.log|);
    var state := if from.Some? then from.value.state else job.start;
    Run(Upstream(pos, if seeded then stored else map[], nonce, 0, [], [], state, map[], 0, [trace], [pos], map[]),
        0, [], false, None, map[], [], Idle, false)
  }

  function PendingOf(pending: map<Id, Pending>, id: Id): Pending {
    if id in pending then pending[id] else Pending(None, None, false)
  }

  /** The map ahead of a further barrier has room: no snapshot is evicted. */
  predicate HasRoom(snaps: map<Id, Bytes>, id: Id) { id in snaps || |snaps| <= MAX_SNAPSHOTS }

  /** Source, injector, operators and tap. */
  ghost function Flow(job: Job, r: Run, l: Label): Option<Run> {
    var u := r.up;
    match l
    case Read(p) =>
      if p < |job.log| && p < |u.pos| && u.pos[p] < |job.log[p]| then
        var pos := u.pos[p := u.pos[p] + 1];
        Some(r.(up := u.(input := u.input + [Item(Src(p, u.pos[p]))], seen := u.seen + [pos],
                         offsets := u.offsets[p := u.pos[p] + 1], pos := pos)))
      else None
    case Pass(time) =>
      Some(r.(up := u.(input := u.input + [Item(Mark(time))], seen := u.seen + [u.pos])))
    case Inject(suffix) =>
      var id := Id(u.nonce, u.count + 1, suffix);
      Some(r.(up := u.(count := u.count + 1, input := u.input + [Bar(id)], seen := u.seen + [u.pos], at := u.at[id := |u.input|]),
              pending := r.pending[id := PendingOf(r.pending, id).(offsets := Some(u.offsets))]))
    case OnRecord(post, outs) =>
      if |u.done| < |u.input| && u.input[|u.done|].Item? && u.cuts != [] then
        var s := u.input[|u.done|].src;
        if Moves(job, s, u.state, post, outs) then
          Some(r.(up := u.(done := u.done + [Result(post, outs)], state := post,
                           cuts := u.cuts + [Extend(Last(u.cuts), u.input[|u.done|], Result(post, outs))])))
        else None
      else None
    case OnBarrier(stale) =>
      if |u.done| < |u.input| && u.input[|u.done|].Bar? && u.cuts != [] then
        var id := u.input[|u.done|].id;
        var u' := u.(done := u.done + [Result(u.state, [])], cuts := u.cuts + [Last(u.cuts)]);
        if HasRoom(u.snaps, id) then Some(r.(up := u'.(snaps := u.snaps[id := u.state])))
        else if stale in u.snaps then Some(r.(up := u'.(snaps := (u.snaps - {stale})[id := u.state])))
        else None
      else None
    case Tap =>
      if u.tapped < |u.done| && u.tapped < |u.input| then
        var item := u.input[u.tapped];
        if item.Item? then Some(r.(up := u.(tapped := u.tapped + 1)))
        else
          var state := if item.id in u.snaps then u.snaps[item.id] else u.state;
          Some(r.(up := u.(tapped := u.tapped + 1, snaps := u.snaps - {item.id}),
                  pending := r.pending[item.id := PendingOf(r.pending, item.id).(state := Some(state))]))
      else None
    case _ => None
  }

  /** The sink's write loop. */
  function Sink(r: Run, l: Label): Option<Run> {
    var u := r.up;
    match l
    case Produce(ok) =>
      if r.sunk < u.tapped && r.sunk < |u.input| && r.sunk < |u.done| && u.input[r.sunk].Item? && r.waiting.None? then
        if ok then Some(r.(sunk := r.sunk + 1, txn := r.txn + u.done[r.sunk].outs))
        else Some(r.(sunk := r.sunk + 1, produceErr := true))
      else None
    case Prepare(ok) =>
      if r.sunk < u.tapped && r.sunk < |u.input| && u.input[r.sunk].Bar? && r.waiting.None? then
        var id := u.input[r.sunk].id;
        Some(r.(sunk := r.sunk + 1, waiting := Some(id), events := r.events + [id],
                pending := r.pending[id := PendingOf(r.pending, id).(err := !ok || r.produceErr)]))
      else None
    case _ => None
  }

  function Signal(waiting: Option<Id>, id: Id): Option<Id> {
    if waiting == Some(id) then None else waiting
  }

  /** The checkpoint the worker builds from what is registered under `id`. */
  function CheckpointFor(r: Run, id: Id, time: int): Checkpoint
    requires id in r.pending
  {
    Checkpoint(id, time, Prepared, r.pending[id].offsets.GetOr(map[]), r.pending[id].state.GetOr([]))
  }

  /** The finalize worker. */
  ghost function Finalize(job: Job, e: Env, r: Run, l: Label): Option<World> {
    match l
    case Take(time) =>
      if r.fin.Idle? && r.events != [] then
        var id := r.events[0];
        var r1 := r.(events := r.events[1..], pending := r.pending - {id});
        if id !in r.pending then Some(World(e, Running(r1)))
        else if r.pending[id].err then Some(World(e, Running(r1.(fin := Aborting(id)))))
        else Some(World(e, Running(r1.(fin := Saving(CheckpointFor(r, id, time), ToFile)))))
      else None
    case Write =>
      if r.fin.Saving? && !r.fin.stage.ToRetain? then
        Some(World(e.(dir := SaveWrite(e.dir, r.fin.c, r.fin.stage)),
                   Running(r.(fin := Saving(r.fin.c, NextStage(r.fin.c, r.fin.stage))))))
      else if r.fin.Promoting? && !r.fin.stage.ToRetain? then
        Some(World(e.(dir := SaveWrite(e.dir, r.fin.c, r.fin.stage)),
                   Running(r.(fin := Promoting(r.fin.c, NextStage(r.fin.c, r.fin.stage))))))
      else None
    case EvictOne(v) =>
      if (r.fin.Saving? || r.fin.Promoting?) && r.fin.stage.ToRetain? && Evictable(e.dir, job.retain, v) then
        Some(World(e.(dir := Evict(e.dir, v)), Running(r)))
      else None
    case SaveDone =>
      if r.fin.Saving? && r.fin.stage.ToRetain? then Some(World(e, Running(r.(fin := Ready(r.fin.c)))))
      else if r.fin.Promoting? && r.fin.stage.ToRetain? then Some(World(e, Running(r.(fin := Idle))))
      else None
    case SaveFail =>
      if r.fin.Saving? then Some(World(e, Running(r.(fin := Aborting(r.fin.c.id)))))
      else if r.fin.Promoting? then Some(World(e, Running(r.(fin := Idle, fatal := true))))
      else None
    case Commit =>
      if r.fin.Ready? && e.inflight.None? && r.fin.c.id in r.up.at && r.up.at[r.fin.c.id] < |r.up.cuts| then
        Some(World(e.(inflight := Some(Txn(r.fin.c.id, r.txn, r.up.cuts[r.up.at[r.fin.c.id]]))),
                   Running(r.(fin := Ending(r.fin.c)))))
      else None
    case CommitOk =>
      if r.fin.Ending? && e.inflight.None? && r.fin.c.id in e.markers then
        Some(World(e, Running(r.(txn := [], produceErr := false, waiting := Signal(r.waiting, r.fin.c.id),
                                 fin := Promoting(r.fin.c.(status := Completed), ToFile)))))
      else None
    case CommitErr =>
      if r.fin.Ending? then Some(World(e, Running(r.(fin := Idle, fatal := true)))) else None
    case AbortOk =>
      if r.fin.Aborting? then
        Some(World(e, Running(r.(txn := [], produceErr := false, waiting := Signal(r.waiting, r.fin.id),
                                 fin := Idle, fatal := true))))
      else None
    case AbortErr =>
      if r.fin.Aborting? then Some(World(e, Running(r.(fin := Idle, fatal := true)))) else None
    case _ => None
  }

  predicate Recovers(l: Label) {
    l.Load? || l.RepairCompleted? || l.Sweep? || l.Probe? || l.CompleteWrite? || l.CompleteEvict? || l.CompleteDone?
    || l.FallBack? || l.Launch? || l.Crash? || l.Decide?
  }

  predicate Flows(l: Label) { l.Read? || l.Pass? || l.Inject? || l.OnRecord? || l.OnBarrier? || l.Tap? }

  predicate Sinks(l: Label) { l.Produce? || l.Prepare? }

  /** One step of the code. */
  ghost function Code(job: Job, seeded: bool, w: World, l: Label): Option<World> {
    if Recovers(l) then Recover(job, seeded, w, l)
    else if !w.proc.Running? then None
    else if Flows(l) then
      match Flow(job, w.proc.r, l)
      case None => None
      case Some(r) => Some(w.(proc := Running(r)))
    else if Sinks(l) then
      match Sink(w.proc.r, l)
      case None => None
      case Some(r) => Some(w.(proc := Running(r)))
    else Finalize(job, w.env, w.proc.r, l)
  }

  // ---- Conditions on a run ----------------------------------------------------------

  /** Every partition with a position above 0 has an entry; in a run that starts with the empty map, it has been read in the run. */
  ghost predicate Reread(pos: seq<nat>, offsets: map<nat, nat>) {
    forall p: nat :: p < |pos| && pos[p] > 0 ==> p in offsets
  }

  /** A usable completed pointer is not behind a newer done file. */
  ghost predicate Current(d: Dir) {
    d.completed.Some? && Usable(d, true, d.completed.value) ==> Newest(d, true, d.files[d.completed.value].data)
  }

  /** The next event of the worker makes a checkpoint. */
  predicate Makes(r: Run) { r.events != [] && r.events[0] in r.pending && !r.pending[r.events[0]].err }

  ghost predicate MeetsRun(h: Hyp, d: Dir, r: Run, l: Label) {
    match l
    case Take(time) => (h.fatalStops ==> !r.fatal) && (h.clockAdvances && Makes(r) ==> Later(d, time))
    case Inject(_) => h.rereads ==> Reread(r.up.pos, r.up.offsets)
    case OnBarrier(_) =>
      h.snapshotsFit && |r.up.done| < |r.up.input| && r.up.input[|r.up.done|].Bar? ==>
        HasRoom(r.up.snaps, r.up.input[|r.up.done|].id)
    case _ => true
  }

  /** The step `l` from `w` respects the conditions of `h`. */
  ghost predicate Meets(h: Hyp, w: World, l: Label) {
    && (l.Probe? && h.settled ==> w.env.inflight.None?)
    && (l.FallBack? && h.current ==> Current(w.env.dir))
    && ((l.Crash? || l.SaveFail?) && h.atomicPromote ==> !MidPromotion(w.proc))
    && (w.proc.Running? ==> MeetsRun(h, w.env.dir, w.proc.r, l))
  }

  ghost function Step(job: Job, h: Hyp, w: World, l: Label): Option<World> {
    if Meets(h, w, l) then Code(job, h.carriesOver, w, l) else None
  }

  /** The world after the steps `ls`, if each of them is enabled in turn. */
  ghost function Exec(job: Job, h: Hyp, w: World, ls: seq<Label>): Option<World> {
    if ls == [] then Some(w)
    else
      match Exec(job, h, w, ls[..|ls| - 1])
      case None => None
      case Some(v) => Step(job, h, v, ls[|ls| - 1])
  }

  /**
    The visible output is that of one uninterrupted execution over a prefix of every partition,
    and a restore point chosen by recovery is exactly the end of that execution.
   */
  ghost predicate ExactlyOnceIn(job: Job, w: World) {
    exists t :: Execution(job, t) && Outputs(t) == w.env.visible && (w.proc.Restoring? ==> Selects(job, w.proc.from, t))
  }

  /** Every world of every run of every job is exactly-once. */
  ghost predicate AlwaysExactlyOnce(h: Hyp) {
    forall job: Job, ls: seq<Label> :: Exec(job, h, Init(), ls).Some? ==>
      ExactlyOnceIn(job, Exec(job, h, Init(), ls).value)
  }
}
