/** The inductive invariant of the checkpoint protocol. */
module ExactlyOnceInvariant {
  import opened Prelude
  import opened CheckpointFiles
  import opened ExactlyOnce

  // ---- Executions and positions -------------------------------------------------

  function Position(pos: seq<nat>, p: nat): nat {
    if p < |pos| then pos[p] else 0
  }

  /** The positions after item `x`. */
  function Advance(pos: seq<nat>, x: In): seq<nat> {
    if x.Item? && x.src.Src? && x.src.part < |pos| then pos[x.src.part := x.src.off + 1] else pos
  }

  /** What `o` holds are the positions `pos`. */
  ghost predicate Partial(pos: seq<nat>, o: map<nat, nat>) {
    forall p: nat :: p in o ==> o[p] == Position(pos, p)
  }

  /** `o` holds positions of `pos`, and under `Covers` all of them. */
  ghost predicate Tracks(h: Hyp, pos: seq<nat>, o: map<nat, nat>) {
    Partial(pos, o) && (Covers(h) ==> Reread(pos, o))
  }

  lemma OnAppend(job: Job, t: Trace, e: Event)
    ensures Outputs(t + [e]) == Outputs(t) + e.outs
    ensures forall p: nat :: Reads(t + [e], p) == Reads(t, p) + (if ReadFrom(e.src, p) then 1 else 0)
    ensures StateAfter(job, t + [e]) == e.post
    ensures Execution(job, t) && Follows(job, t, e) ==> Execution(job, t + [e])
  {
    assert (t + [e])[..|t|] == t;
  }

  // ---- Checkpoints of an execution ---------------------------------------------------

  /** `c` was taken at the end of `t`: its state is the state there, and the positions it holds are the positions there. */
  ghost predicate TakenAt(job: Job, c: Checkpoint, t: Trace) {
    c.state == StateAfter(job, t) && forall p: nat :: p in c.offsets ==> c.offsets[p] == Reads(t, p)
  }

  /** No partition read by `t` is missing from the positions of `c`. */
  ghost predicate Whole(c: Checkpoint, t: Trace) {
    forall p: nat :: Reads(t, p) > 0 ==> p in c.offsets
  }

  ghost predicate CheckpointAt(job: Job, h: Hyp, c: Checkpoint, t: Trace) {
    TakenAt(job, c, t) && (Covers(h) ==> Whole(c, t))
  }

  ghost predicate TakenAfter(job: Job, h: Hyp, c: Checkpoint, t: Trace, k: nat) {
    k <= |t| && CheckpointAt(job, h, c, t[..k])
  }

  /** `c` was taken somewhere on the way of `t`. */
  ghost predicate Within(job: Job, h: Hyp, c: Checkpoint, t: Trace) {
    exists k: nat :: TakenAfter(job, h, c, t, k)
  }

  lemma WithinEnd(job: Job, h: Hyp, c: Checkpoint, t: Trace)
    requires CheckpointAt(job, h, c, t)
    ensures Within(job, h, c, t)
  {
    assert t[..|t|] == t;
    assert TakenAfter(job, h, c, t, |t|);
  }

  lemma WithinGrows(job: Job, h: Hyp, c: Checkpoint, t: Trace, t': Trace)
    requires Within(job, h, c, t) && t <= t'
    ensures Within(job, h, c, t')
  {
    var k: nat :| TakenAfter(job, h, c, t, k);
    assert t'[..k] == t[..k];
    assert TakenAfter(job, h, c, t', k);
  }

  /** To select `t` is to be taken at its end without missing a partition. */
  lemma SelectsIff(job: Job, c: Checkpoint, t: Trace)
    ensures Selects(job, Some(c), t) <==> TakenAt(job, c, t) && Whole(c, t)
  {
    if Selects(job, Some(c), t) {
      forall p: nat ensures (p in c.offsets ==> c.offsets[p] == Reads(t, p)) && (Reads(t, p) > 0 ==> p in c.offsets) {
        assert Resume(c.offsets, p) == Reads(t, p);
      }
    }
  }

  // ---- The run ----------------------------------------------------------

  /** `t` is an execution that has read exactly up to `pos`. */
  ghost predicate CutOk(job: Job, t: Trace, pos: seq<nat>) {
    |pos| == |job.log| && Execution(job, t) && forall p: nat :: Reads(t, p) == Position(pos, p)
  }

  ghost predicate SrcOk(job: Job, s: Src, pos: seq<nat>) {
    s.Src? ==> s.part < |job.log| && s.off == Position(pos, s.part) && s.off < |job.log[s.part]|
  }

  /** The stages follow one another, and every barrier stands where history says. */
  ghost predicate Shape(u: Upstream) {
    && u.tapped <= |u.done| <= |u.input|
    && |u.cuts| == |u.done| + 1 && |u.seen| == |u.input| + 1
    && (forall id :: id in u.at ==>
          u.at[id] < |u.input| && u.input[u.at[id]] == Bar(id) && id.nonce == u.nonce && id.number <= u.count)
    && (forall i :: 0 <= i < |u.input| && u.input[i].Bar? ==> u.input[i].id in u.at && u.at[u.input[i].id] == i)
  }

  /** Records are read in order, and the offset map holds the injector's positions. */
  ghost predicate Injected(job: Job, h: Hyp, u: Upstream)
    requires Shape(u)
  {
    && u.pos == u.seen[|u.input|] && |u.pos| == |job.log|
    && Partial(u.pos, u.offsets) && (h.carriesOver ==> Reread(u.pos, u.offsets))
    && (forall i :: 0 <= i < |u.input| && u.input[i].Item? ==> SrcOk(job, u.input[i].src, u.seen[i]))
    && (forall i :: 0 <= i < |u.input| ==> u.seen[i + 1] == Advance(u.seen[i], u.input[i]))
  }

  /** Each item moves the execution on by what the operators made of it. */
  ghost predicate Linked(u: Upstream)
    requires Shape(u)
  {
    forall i :: 0 <= i < |u.done| ==> u.cuts[i + 1] == Extend(u.cuts[i], u.input[i], u.done[i])
  }

  /** Every cut is an execution that has read exactly the records ahead of it, and the operators stand at the last one. */
  ghost predicate Executed(job: Job, u: Upstream)
    requires Shape(u)
  {
    && (forall i :: 0 <= i < |u.cuts| ==> CutOk(job, u.cuts[i], u.seen[i]))
    && u.state == StateAfter(job, u.cuts[|u.done|])
  }

  /** A barrier between operators and tap has its snapshot waiting. */
  ghost predicate Snapshots(job: Job, u: Upstream)
    requires Shape(u)
  {
    forall id :: id in u.at && u.tapped <= u.at[id] < |u.done| ==>
      id in u.snaps && u.snaps[id] == StateAfter(job, u.cuts[u.at[id]])
  }

  ghost predicate UpOk(job: Job, h: Hyp, u: Upstream) {
    Shape(u) && Injected(job, h, u) && Linked(u) && Executed(job, u) && Snapshots(job, u)
  }

  predicate Open(r: Run, id: Id) { id in r.up.at && (r.up.at[id] >= r.sunk || id in r.events) }

  /** A checkpoint is registered with its positions and, past the tap, its barrier-time state. */
  ghost predicate EntryOk(job: Job, h: Hyp, u: Upstream, pending: map<Id, Pending>, id: Id)
    requires Shape(u) && id in u.at
  {
    && id in pending && pending[id].offsets.Some?
    && Tracks(h, u.seen[u.at[id]], pending[id].offsets.value)
    && (u.at[id] < u.tapped ==> pending[id].state == Some(StateAfter(job, u.cuts[u.at[id]])))
  }

  /** Every checkpoint not yet finalized is registered. */
  ghost predicate Registered(job: Job, h: Hyp, r: Run)
    requires Shape(r.up)
  {
    forall id :: Open(r, id) ==> EntryOk(job, h, r.up, r.pending, id)
  }

  predicate CommitSeen(e: Env, r: Run) { r.fin.Ending? && r.fin.c.id in e.markers }

  /** Without a produce error, visible output plus open transaction is the output ahead of the sink's position. */
  ghost predicate Staged(e: Env, r: Run)
    requires Shape(r.up) && r.sunk <= r.up.tapped
  {
    !r.fatal ==>
      && e.trace <= r.up.cuts[r.sunk]
      && (!r.produceErr ==> Outputs(r.up.cuts[r.sunk]) == if CommitSeen(e, r) then e.visible else e.visible + r.txn)
  }

  ghost predicate CheckpointOf(job: Job, h: Hyp, u: Upstream, c: Checkpoint)
    requires Shape(u)
  {
    && c.status.Prepared? && c.id in u.at && u.at[c.id] < |u.done|
    && c.state == StateAfter(job, u.cuts[u.at[c.id]])
    && Tracks(h, u.seen[u.at[c.id]], c.offsets)
  }

  predicate Between(fin: Finalizer) { fin.Idle? || fin.Promoting? }

  /** The sink waits at exactly the barrier that is queued or being finalized. */
  ghost predicate Waits(job: Job, h: Hyp, r: Run, id: Id)
    requires Shape(r.up)
  {
    && id in r.up.at && r.up.at[id] + 1 == r.sunk
    && (if Between(r.fin) then
          r.events == [id] && id in r.pending && (r.pending[id].err || !r.produceErr)
        else
          && r.events == []
          && (!r.fin.Aborting? ==> r.fin.c.id == id && CheckpointOf(job, h, r.up, r.fin.c) && !r.produceErr))
  }

  ghost predicate Handshake(job: Job, h: Hyp, r: Run)
    requires Shape(r.up)
  {
    && (r.fatal ==> r.fin.Idle?)
    && (!r.fatal ==> if r.waiting.None? then r.events == [] && Between(r.fin) else Waits(job, h, r, r.waiting.value))
  }

  // ---- The directory ----------------------------------------------------------------

  predicate DoneFile(d: Dir, i: Id) { Usable(d, true, i) }

  predicate Earlier(d: Dir, i: Id, j: Id)
    requires i in d.files && j in d.files && d.files[i].Good? && d.files[j].Good?
  {
    d.files[i].data.time < d.files[j].data.time
  }

  /** `n` is the newest done file. */
  ghost predicate IsTop(d: Dir, n: Id) {
    DoneFile(d, n) && forall j :: DoneFile(d, j) && j != n ==> Earlier(d, j, n)
  }

  /** The newest done file was taken at the end of `t`; without any, nothing has happened yet. */
  ghost predicate TopAt(job: Job, h: Hyp, d: Dir, t: Trace) {
    && (forall n :: IsTop(d, n) ==> CheckpointAt(job, h, d.files[n].data, t))
    && ((forall i :: !DoneFile(d, i)) ==> t == [])
  }

  /** Every done file was taken on the way of `t`. */
  ghost predicate AllWithin(job: Job, h: Hyp, d: Dir, t: Trace) {
    forall i :: DoneFile(d, i) ==> Within(job, h, d.files[i].data, t)
  }

  predicate PreparedFile(d: Dir, i: Id) { i in d.files && d.files[i].Good? && d.files[i].data.status.Prepared? }

  /** The latest checkpoint is not one that is committed but still marked prepared. */
  predicate Quiet(e: Env) {
    e.dir.latest.Some? && PreparedFile(e.dir, e.dir.latest.value) ==> e.dir.latest.value !in e.markers
  }

  ghost predicate Readable(d: Dir) {
    forall i :: i in d.files ==> d.files[i].Good? && d.files[i].data.id == i && !d.files[i].data.status.Legacy?
  }

  ghost predicate Distinct(d: Dir)
    requires Readable(d)
  {
    forall i, j :: i in d.files && j in d.files && i != j ==> d.files[i].data.time != d.files[j].data.time
  }

  /** The latest pointer names a file newer than every done one. */
  ghost predicate Led(d: Dir, markers: set<Id>)
    requires Readable(d)
  {
    if d.latest.None? then forall i :: i in d.files ==> !DoneFile(d, i) && i !in markers
    else d.latest.value in d.files && forall j :: DoneFile(d, j) && j != d.latest.value ==> Earlier(d, j, d.latest.value)
  }

  ghost predicate FilesOk(d: Dir, markers: set<Id>, nonce: nat) {
    && Readable(d) && Distinct(d) && Led(d, markers)
    && (forall i :: i in d.files || i in markers ==> i.nonce < nonce)
  }

  /** What recovery would find: the latest checkpoint if it is known to be committed, else the newest done one. */
  ghost predicate Durable(job: Job, h: Hyp, e: Env) {
    if Quiet(e) then TopAt(job, h, e.dir, e.trace)
    else CheckpointAt(job, h, e.dir.files[e.dir.latest.value].data, e.trace)
  }

  ghost predicate InflightOk(job: Job, h: Hyp, e: Env) {
    e.inflight.Some? ==>
      var x := e.inflight.value;
      && e.dir.latest == Some(x.id) && PreparedFile(e.dir, x.id) && x.id !in e.markers
      && Execution(job, x.trace) && Outputs(x.trace) == e.visible + x.outs && e.trace <= x.trace
      && CheckpointAt(job, h, e.dir.files[x.id].data, x.trace)
  }

  // `EnvOk` and `RunOk` are quantified over their own argument, so that a proof sees what they say
  // only after it mentions `UnfoldEnv(e)` or `UnfoldRun(r)`.

  ghost predicate UnfoldEnv(e: Env) { true }

  ghost predicate UnfoldRun(r: Run) { true }

  ghost predicate EnvOk(job: Job, h: Hyp, e: Env) {
    forall v: Env {:trigger UnfoldEnv(v)} :: v == e ==> EnvFacts(job, h, v)
  }

  ghost predicate EnvFacts(job: Job, h: Hyp, e: Env) {
    && Execution(job, e.trace) && Outputs(e.trace) == e.visible
    && FilesOk(e.dir, e.markers, e.nonce)
    && AllWithin(job, h, e.dir, e.trace) && Durable(job, h, e) && InflightOk(job, h, e)
  }

  // ---- Phases --------------------------------------------------------------------------

  ghost predicate StoredAs(d: Dir, c: Checkpoint) {
    d.latest == Some(c.id) && c.id in d.files && d.files[c.id] == Good(c)
  }

  ghost predicate SavingOk(e: Env, c: Checkpoint, stage: Stage) {
    && c.status.Prepared? && c.id !in e.markers && Quiet(e)
    && match stage
       case ToFile => c.id !in e.dir.files && Later(e.dir, c.time)
       case ToLatest =>
         && c.id in e.dir.files && e.dir.files[c.id] == Good(c)
         && forall i :: Usable(e.dir, false, i) && i != c.id ==> e.dir.files[i].data.time < c.time
       case ToCompleted => false
       case ToRetain => StoredAs(e.dir, c)
  }

  ghost predicate PromotingOk(job: Job, h: Hyp, e: Env, c: Checkpoint, stage: Stage) {
    && c.status.Completed? && c.id in e.markers && e.inflight.None?
    && e.dir.latest == Some(c.id) && CheckpointAt(job, h, c, e.trace)
    && c.id in e.dir.files
    && e.dir.files[c.id] == (if stage.ToFile? then Good(c.(status := Prepared)) else Good(c))
  }

  /** Names of this run on disk or at the broker belong to barriers the sink has passed. */
  ghost predicate Named(e: Env, r: Run) {
    && r.up.nonce + 1 == e.nonce
    && (forall id :: (id in e.dir.files || id in e.markers) && id.nonce == r.up.nonce ==> id in r.up.at && r.up.at[id] < r.sunk)
    && (forall i :: 0 <= i < |r.events| ==> r.events[i] !in e.dir.files && r.events[i] !in e.markers)
  }

  ghost predicate Finalizing(job: Job, h: Hyp, e: Env, r: Run) {
    && (e.inflight.Some? ==>
          && r.fin.Ending? && e.inflight.value.id == r.fin.c.id && e.inflight.value.outs == r.txn
          && r.sunk < |r.up.cuts| && e.inflight.value.trace == r.up.cuts[r.sunk])
    && match r.fin
       case Idle => Quiet(e)
       case Aborting(_) => Quiet(e)
       case Saving(c, stage) => SavingOk(e, c, stage)
       case Ready(c) => SavingOk(e, c, ToRetain)
       case Ending(c) => StoredAs(e.dir, c) && c.status.Prepared? && (c.id in e.markers ==> e.inflight.None?)
       case Promoting(c, stage) => PromotingOk(job, h, e, c, stage)
  }

  ghost predicate RunOk(job: Job, h: Hyp, e: Env, r: Run) {
    forall v: Run {:trigger UnfoldRun(v)} :: v == r ==> RunFacts(job, h, e, v)
  }

  ghost predicate RunFacts(job: Job, h: Hyp, e: Env, r: Run) {
    && UpOk(job, h, r.up) && r.sunk <= r.up.tapped
    && Registered(job, h, r) && Staged(e, r) && Handshake(job, h, r)
    && Named(e, r) && (!r.fatal ==> Finalizing(job, h, e, r))
  }

  /** A restore point was taken on the way of `t`; at its end when fallbacks find the newest done checkpoint. */
  ghost predicate RestoreOk(job: Job, h: Hyp, from: Option<Checkpoint>, t: Trace) {
    match from
    case None => t == []
    case Some(c) => Within(job, h, c, t) && (Fixed(h) ==> CheckpointAt(job, h, c, t))
  }

  ghost predicate PhaseOk(job: Job, h: Hyp, e: Env, p: Process) {
    match p
    case Down => true
    case Probing(c) => StoredAs(e.dir, c) && c.status.Prepared?
    case Completing(c, stage) => PromotingOk(job, h, e, c, stage)
    case FallingBack => Quiet(e) && e.inflight.None?
    case Restoring(from) => Quiet(e) && e.inflight.None? && RestoreOk(job, h, from, e.trace)
    case Running(r) => RunOk(job, h, e, r)
  }

  /** The checkpoint whose promotion has rewritten its file but not yet the completed pointer. */
  function Window(p: Process): set<Id> {
    if !MidPromotion(p) then {}
    else if p.Completing? then {p.c.id}
    else {p.r.fin.c.id}
  }

  /** The completed pointer names the newest done file, leaving `skip` aside; only the latest checkpoint is left aside. */
  ghost predicate Pointed(d: Dir, skip: set<Id>) {
    && (forall s :: s in skip ==> d.latest == Some(s) && DoneFile(d, s))
    && match d.completed
       case None => forall j :: DoneFile(d, j) ==> j in skip
       case Some(k) =>
         DoneFile(d, k) && k !in skip && forall j :: DoneFile(d, j) && j != k && j !in skip ==> Earlier(d, j, k)
  }

  ghost predicate Inv(job: Job, h: Hyp, w: World) {
    && EnvOk(job, h, w.env) && PhaseOk(job, h, w.env, w.proc)
    && (h.atomicPromote ==> Pointed(w.env.dir, Window(w.proc)))
  }

  /** The restore point about to be launched is the end of the execution whose output is visible. */
  ghost predicate LaunchOk(job: Job, w: World) {
    w.proc.Restoring? ==> Selects(job, w.proc.from, w.env.trace)
  }
}
