/** Preservation of the invariant by the finalize worker. */
module ExactlyOnceFinalize {
  import opened Prelude
  import opened CheckpointFiles
  import opened ExactlyOnce
  import opened ExactlyOnceInvariant
  import opened ExactlyOnceRecovery

  // ---- What the worker leaves alone ------------------------------------------------------

  /** The worker leaves the streams and every checkpoint it is not working on alone. */
  ghost predicate Behind(r: Run, r': Run) {
    && r'.up == r.up && r'.sunk == r.sunk
    && (forall id :: Open(r', id) ==> Open(r, id))
    && (forall id :: Open(r', id) && id in r.pending ==> id in r'.pending && r'.pending[id] == r.pending[id])
  }

  lemma BehindRegistered(job: Job, h: Hyp, r: Run, r': Run)
    requires Shape(r.up) && Registered(job, h, r) && Behind(r, r')
    ensures Registered(job, h, r')
  {
    forall id | Open(r', id) ensures EntryOk(job, h, r'.up, r'.pending, id) {
      assert EntryOk(job, h, r.up, r.pending, id);
    }
  }

  /** A run whose streams and registrations are kept. */
  lemma BehindKeeps(job: Job, h: Hyp, e: Env, r: Run, e': Env, r': Run)
    requires RunOk(job, h, e, r) && Behind(r, r') && Shape(r'.up) && r'.sunk <= r'.up.tapped
    requires Staged(e', r') && Handshake(job, h, r') && Named(e', r') && (!r'.fatal ==> Finalizing(job, h, e', r'))
    ensures RunOk(job, h, e', r')
  {
    assert UnfoldRun(r);
    BehindRegistered(job, h, r, r');
    assert RunFacts(job, h, e', r');
  }

  /** Only the worker's own place changes. */
  lemma FinMoves(job: Job, h: Hyp, e: Env, r: Run, e': Env, r': Run)
    requires Shape(r.up) && r.sunk <= r.up.tapped && Handshake(job, h, r) && Staged(e, r) && !r.fatal
    requires r' == r.(fin := r'.fin) && e'.visible == e.visible && e'.trace == e.trace
    requires !CommitSeen(e, r) && !CommitSeen(e', r') && Between(r'.fin) == Between(r.fin)
    requires !Between(r'.fin) && !r'.fin.Aborting? ==> !r.fin.Aborting? && r'.fin.c == r.fin.c
    ensures Behind(r, r') && Handshake(job, h, r') && Staged(e', r')
  {
  }

  lemma SameNamed(e: Env, r: Run, e': Env, r': Run)
    requires Named(e, r) && e'.nonce == e.nonce && e'.markers == e.markers
    requires forall i :: i in e'.dir.files ==> i in e.dir.files
    requires r'.up == r.up && r'.sunk == r.sunk && forall i :: 0 <= i < |r'.events| ==> r'.events[i] in r.events
    ensures Named(e', r')
  {
  }

  /** The worker's step as a whole, from its effect on the environment and on the run. */
  lemma Assemble(job: Job, h: Hyp, e': Env, r': Run)
    requires EnvOk(job, h, e') && RunOk(job, h, e', r')
    requires h.atomicPromote ==> Pointed(e'.dir, Window(Running(r')))
    ensures Inv(job, h, World(e', Running(r')))
  {
  }

  // ---- Taking an event ------------------------------------------------------------

  ghost predicate Takes(r: Run, time: int, r': Run) {
    && r.fin.Idle? && r.events != []
    && var id := r.events[0];
       r' == r.(events := r.events[1..], pending := r.pending - {id},
                fin := if id !in r.pending then Idle
                       else if r.pending[id].err then Aborting(id)
                       else Saving(CheckpointFor(r, id, time), ToFile))
  }

  lemma TakeForm(job: Job, h: Hyp, r: Run)
    requires Shape(r.up) && Handshake(job, h, r) && r.events != [] && r.fin.Idle? && !r.fatal
    ensures var id := r.events[0];
            r.waiting == Some(id) && r.events == [id] && Waits(job, h, r, id) && id in r.pending && Open(r, id)
  {
  }

  /** What is registered under a barrier is the checkpoint of its cut. */
  lemma TakenCheckpoint(job: Job, h: Hyp, r: Run, id: Id, time: int)
    requires Shape(r.up) && r.sunk <= r.up.tapped && id in r.up.at && r.up.at[id] + 1 == r.sunk && id in r.pending
    requires EntryOk(job, h, r.up, r.pending, id)
    ensures CheckpointOf(job, h, r.up, CheckpointFor(r, id, time))
  {
  }

  lemma TakeHandshake(job: Job, h: Hyp, r: Run, time: int, r': Run)
    requires Shape(r.up) && r.sunk <= r.up.tapped && Registered(job, h, r) && Handshake(job, h, r) && !r.fatal && Takes(r, time, r')
    ensures Behind(r, r') && Handshake(job, h, r') && r'.events == []
  {
    TakeForm(job, h, r);
    var id := r.events[0];
    assert EntryOk(job, h, r.up, r.pending, id);
    TakenCheckpoint(job, h, r, id, time);
    assert r'.events == [];
  }

  lemma TakeFinalizing(job: Job, h: Hyp, e: Env, r: Run, time: int, r': Run)
    requires Named(e, r) && Finalizing(job, h, e, r) && Takes(r, time, r') && (Makes(r) ==> Later(e.dir, time))
    ensures Finalizing(job, h, e, r')
  {
    assert r.events[0] !in e.dir.files && r.events[0] !in e.markers;
  }

  lemma TakeKeeps(job: Job, h: Hyp, e: Env, r: Run, time: int, r': Run)
    requires RunOk(job, h, e, r) && !r.fatal && Takes(r, time, r') && (Makes(r) ==> Later(e.dir, time))
    ensures RunOk(job, h, e, r')
  {
    assert UnfoldRun(r);
    TakeHandshake(job, h, r, time, r');
    TakeFinalizing(job, h, e, r, time, r');
    SameNamed(e, r, e, r');
    BehindKeeps(job, h, e, r, e, r');
  }

  // ---- Persisting a prepared checkpoint ---------------------------------------------

  /** The done files of two directories are the same. */
  ghost predicate SameDone(d: Dir, d': Dir) {
    forall j :: DoneFile(d', j) == DoneFile(d, j) && (DoneFile(d, j) ==> d'.files[j] == d.files[j])
  }

  lemma SameTop(job: Job, h: Hyp, d: Dir, d': Dir, t: Trace)
    requires SameDone(d, d')
    ensures TopAt(job, h, d, t) ==> TopAt(job, h, d', t)
    ensures AllWithin(job, h, d, t) ==> AllWithin(job, h, d', t)
  {
    assert forall n :: IsTop(d', n) == IsTop(d, n);
  }

  lemma SameDonePointed(d: Dir, d': Dir)
    requires SameDone(d, d') && Pointed(d, {}) && d'.completed == d.completed
    ensures Pointed(d', {})
  {
  }

  lemma SaveFileDone(d: Dir, c: Checkpoint)
    requires c.status.Prepared? && c.id !in d.files
    ensures SameDone(d, SaveWrite(d, c, ToFile))
  {
  }

  lemma SaveFileFiles(d: Dir, markers: set<Id>, nonce: nat, c: Checkpoint)
    requires FilesOk(d, markers, nonce) && c.status.Prepared? && c.id !in d.files && c.id !in markers && c.id.nonce < nonce && Later(d, c.time)
    ensures FilesOk(SaveWrite(d, c, ToFile), markers, nonce) && SameDone(d, SaveWrite(d, c, ToFile))
  {
    SaveFileDone(d, c);
    assert forall i :: i in d.files ==> Usable(d, false, i);
  }

  lemma SaveFileStage(e: Env, c: Checkpoint, e': Env)
    requires SavingOk(e, c, ToFile) && e' == e.(dir := SaveWrite(e.dir, c, ToFile))
    ensures SavingOk(e', c, ToLatest)
  {
    assert forall i :: Usable(e'.dir, false, i) && i != c.id ==> Usable(e.dir, false, i);
  }

  lemma SaveFile(job: Job, h: Hyp, e: Env, c: Checkpoint, e': Env)
    requires EnvOk(job, h, e) && Quiet(e) && c.id !in e.dir.files && c.id !in e.markers && e' == e.(dir := SaveWrite(e.dir, c, ToFile))
    requires FilesOk(e'.dir, e'.markers, e'.nonce) && SameDone(e.dir, e'.dir)
    ensures EnvOk(job, h, e')
  {
    assert UnfoldEnv(e);
    SameTop(job, h, e.dir, e'.dir, e.trace);
    SaveFileQuiet(e, c, e');
    SaveFileInflight(job, h, e, c, e');
    assert EnvFacts(job, h, e');
  }

  lemma SaveFileQuiet(e: Env, c: Checkpoint, e': Env)
    requires Quiet(e) && c.id !in e.dir.files && c.id !in e.markers && e' == e.(dir := SaveWrite(e.dir, c, ToFile))
    ensures Quiet(e')
  {
  }

  lemma SaveFileInflight(job: Job, h: Hyp, e: Env, c: Checkpoint, e': Env)
    requires InflightOk(job, h, e) && c.id !in e.dir.files && e' == e.(dir := SaveWrite(e.dir, c, ToFile))
    ensures InflightOk(job, h, e')
  {
  }

  lemma SavedFiles(job: Job, h: Hyp, e: Env, c: Checkpoint)
    requires EnvOk(job, h, e) && SavingOk(e, c, ToFile) && c.id.nonce < e.nonce
    ensures FilesOk(SaveWrite(e.dir, c, ToFile), e.markers, e.nonce) && SameDone(e.dir, SaveWrite(e.dir, c, ToFile))
  {
    assert UnfoldEnv(e);
    SaveFileFiles(e.dir, e.markers, e.nonce, c);
  }

  lemma SaveLatestFiles(d: Dir, markers: set<Id>, nonce: nat, c: Checkpoint)
    requires FilesOk(d, markers, nonce) && c.id in d.files && d.files[c.id] == Good(c)
    requires forall i :: Usable(d, false, i) && i != c.id ==> d.files[i].data.time < c.time
    ensures FilesOk(SaveWrite(d, c, ToLatest), markers, nonce) && SameDone(d, SaveWrite(d, c, ToLatest))
  {
    var d' := SaveWrite(d, c, ToLatest);
    assert SameDone(d, d');
    assert forall j :: DoneFile(d', j) ==> Usable(d, false, j);
  }

  lemma SaveLatest(job: Job, h: Hyp, e: Env, c: Checkpoint, e': Env)
    requires EnvOk(job, h, e) && SavingOk(e, c, ToLatest) && e.inflight.None? && e' == e.(dir := SaveWrite(e.dir, c, ToLatest))
    ensures EnvOk(job, h, e') && SavingOk(e', c, ToRetain) && SameDone(e.dir, e'.dir)
  {
    assert UnfoldEnv(e);
    SaveLatestFiles(e.dir, e.markers, e.nonce, c);
    SameTop(job, h, e.dir, e'.dir, e.trace);
    assert EnvFacts(job, h, e');
  }

  /** Each durable write of a prepared save. */
  lemma SavingWrite(job: Job, h: Hyp, e: Env, c: Checkpoint, stage: Stage, e': Env)
    requires EnvOk(job, h, e) && SavingOk(e, c, stage) && c.id.nonce < e.nonce && e.inflight.None? && !stage.ToRetain?
    requires e' == e.(dir := SaveWrite(e.dir, c, stage))
    ensures EnvOk(job, h, e') && SavingOk(e', c, NextStage(c, stage)) && SameDone(e.dir, e'.dir)
  {
    if stage.ToFile? {
      SavedFiles(job, h, e, c);
      SaveFile(job, h, e, c, e');
      SaveFileStage(e, c, e');
    } else {
      SaveLatest(job, h, e, c, e');
    }
  }

  /** The checkpoint being saved carries a name of this run, of a barrier the sink has passed. */
  lemma SavingNamed(job: Job, h: Hyp, e: Env, r: Run)
    requires RunOk(job, h, e, r) && r.fin.Saving?
    ensures !r.fatal && Finalizing(job, h, e, r) && e.inflight.None? && SavingOk(e, r.fin.c, r.fin.stage)
    ensures var id := r.fin.c.id; r.events == [] && id in r.up.at && r.up.at[id] < r.sunk && id.nonce == r.up.nonce && id.nonce < e.nonce
  {
    assert UnfoldRun(r);
  }

  lemma SavedNamed(e: Env, r: Run, c: Checkpoint, e': Env, r': Run)
    requires Named(e, r) && r.events == [] && c.id in r.up.at && r.up.at[c.id] < r.sunk
    requires e'.nonce == e.nonce && e'.markers == e.markers && (forall i :: i in e'.dir.files ==> i in e.dir.files || i == c.id)
    requires r'.up == r.up && r'.sunk == r.sunk && r'.events == r.events
    ensures Named(e', r')
  {
  }

  lemma SaveWriteRun(job: Job, h: Hyp, e: Env, r: Run, e': Env, r': Run)
    requires RunOk(job, h, e, r) && r.fin.Saving? && r' == r.(fin := Saving(r.fin.c, NextStage(r.fin.c, r.fin.stage)))
    requires e' == e.(dir := SaveWrite(e.dir, r.fin.c, r.fin.stage)) && SavingOk(e', r'.fin.c, r'.fin.stage)
    ensures RunOk(job, h, e', r')
  {
    SavingNamed(job, h, e, r);
    assert UnfoldRun(r);
    FinMoves(job, h, e, r, e', r');
    SavedNamed(e, r, r.fin.c, e', r');
    BehindKeeps(job, h, e, r, e', r');
  }

  lemma SaveWriteKeeps(job: Job, h: Hyp, e: Env, r: Run, e': Env, r': Run)
    requires EnvOk(job, h, e) && RunOk(job, h, e, r) && r.fin.Saving? && !r.fin.stage.ToRetain?
    requires r' == r.(fin := Saving(r.fin.c, NextStage(r.fin.c, r.fin.stage)))
    requires e' == e.(dir := SaveWrite(e.dir, r.fin.c, r.fin.stage))
    ensures EnvOk(job, h, e') && RunOk(job, h, e', r')
    ensures Pointed(e.dir, {}) ==> Pointed(e'.dir, {})
  {
    SavingNamed(job, h, e, r);
    SavingWrite(job, h, e, r.fin.c, r.fin.stage, e');
    SaveWriteRun(job, h, e, r, e', r');
    if Pointed(e.dir, {}) {
      SameDonePointed(e.dir, e'.dir);
    }
  }

  // ---- Promoting --------------------------------------------------------------------

  lemma PromotingRun(job: Job, h: Hyp, e: Env, r: Run)
    requires RunOk(job, h, e, r) && r.fin.Promoting?
    ensures !r.fatal && PromotingOk(job, h, e, r.fin.c, r.fin.stage)
  {
    assert UnfoldRun(r);
  }

  lemma PromoteWriteRun(job: Job, h: Hyp, e: Env, r: Run, e': Env, r': Run)
    requires RunOk(job, h, e, r) && r.fin.Promoting? && r' == r.(fin := Promoting(r.fin.c, NextStage(r.fin.c, r.fin.stage)))
    requires e' == e.(dir := SaveWrite(e.dir, r.fin.c, r.fin.stage)) && PromotingOk(job, h, e', r'.fin.c, r'.fin.stage)
    ensures RunOk(job, h, e', r')
  {
    PromotingRun(job, h, e, r);
    assert UnfoldRun(r);
    FinMoves(job, h, e, r, e', r');
    PromotedNamed(e, r, e', r');
    BehindKeeps(job, h, e, r, e', r');
  }

  lemma PromotedNamed(e: Env, r: Run, e': Env, r': Run)
    requires Named(e, r) && r.fin.Promoting? && r.fin.c.id in e.dir.files && r' == r.(fin := r'.fin)
    requires e' == e.(dir := SaveWrite(e.dir, r.fin.c, r.fin.stage))
    ensures Named(e', r')
  {
    SameNamed(e, r, e', r');
  }

  lemma PromoteWriteKeeps(job: Job, h: Hyp, e: Env, r: Run, e': Env, r': Run)
    requires EnvOk(job, h, e) && RunOk(job, h, e, r) && r.fin.Promoting? && !r.fin.stage.ToRetain?
    requires r' == r.(fin := Promoting(r.fin.c, NextStage(r.fin.c, r.fin.stage)))
    requires e' == e.(dir := SaveWrite(e.dir, r.fin.c, r.fin.stage))
    ensures EnvOk(job, h, e') && RunOk(job, h, e', r')
  {
    PromotingRun(job, h, e, r);
    PromoteWrite(job, h, e, r.fin.c, r.fin.stage, e');
    PromoteWriteRun(job, h, e, r, e', r');
  }

  lemma PromoteWritePointed(job: Job, h: Hyp, e: Env, r: Run)
    requires EnvOk(job, h, e) && RunOk(job, h, e, r) && r.fin.Promoting? && !r.fin.stage.ToRetain? && Pointed(e.dir, Window(Running(r)))
    ensures Pointed(SaveWrite(e.dir, r.fin.c, r.fin.stage), Skipped(r.fin.c, NextStage(r.fin.c, r.fin.stage)))
  {
    PromotingRun(job, h, e, r);
    assert UnfoldEnv(e);
    PromotePointed(e.dir, e.markers, r.fin.c, r.fin.stage);
  }

  // ---- Retention, completion and failure of a save --------------------------------------

  lemma EvictFinalizing(job: Job, h: Hyp, e: Env, r: Run, v: Id, e': Env)
    requires Finalizing(job, h, e, r) && (r.fin.Saving? || r.fin.Promoting?) && r.fin.stage.ToRetain?
    requires e.dir.latest != Some(v) && e' == e.(dir := Evict(e.dir, v))
    ensures Finalizing(job, h, e', r)
  {
  }

  lemma EvictRun(job: Job, h: Hyp, e: Env, r: Run, v: Id, e': Env)
    requires RunOk(job, h, e, r) && (r.fin.Saving? || r.fin.Promoting?) && r.fin.stage.ToRetain?
    requires e.dir.latest != Some(v) && e' == e.(dir := Evict(e.dir, v))
    ensures RunOk(job, h, e', r)
  {
    assert UnfoldRun(r);
    EvictFinalizing(job, h, e, r, v, e');
    SameNamed(e, r, e', r);
    BehindKeeps(job, h, e, r, e', r);
  }

  lemma EvictOneKeeps(job: Job, h: Hyp, e: Env, r: Run, v: Id, e': Env)
    requires EnvOk(job, h, e) && RunOk(job, h, e, r) && (r.fin.Saving? || r.fin.Promoting?) && r.fin.stage.ToRetain?
    requires Evictable(e.dir, job.retain, v) && e' == e.(dir := Evict(e.dir, v))
    ensures EnvOk(job, h, e') && RunOk(job, h, e', r)
    ensures Pointed(e.dir, {}) ==> Pointed(e'.dir, {})
  {
    EvictEnv(job, h, e, v);
    EvictRun(job, h, e, r, v, e');
    assert UnfoldEnv(e);
    if Pointed(e.dir, {}) {
      EvictPointed(e.dir, job.retain, v);
    }
  }

  /** A save or a promotion is through. */
  lemma SaveDoneKeeps(job: Job, h: Hyp, e: Env, r: Run, r': Run)
    requires RunOk(job, h, e, r) && (r.fin.Saving? || r.fin.Promoting?) && r.fin.stage.ToRetain?
    requires r' == r.(fin := if r.fin.Saving? then Ready(r.fin.c) else Idle)
    ensures RunOk(job, h, e, r')
  {
    assert UnfoldRun(r);
    FinMoves(job, h, e, r, e, r');
    SameNamed(e, r, e, r');
    BehindKeeps(job, h, e, r, e, r');
  }

  /** A failed save leads to an abort. */
  lemma SaveFailKeeps(job: Job, h: Hyp, e: Env, r: Run, r': Run)
    requires RunOk(job, h, e, r) && r.fin.Saving? && r' == r.(fin := Aborting(r.fin.c.id))
    ensures RunOk(job, h, e, r')
  {
    assert UnfoldRun(r);
    FinMoves(job, h, e, r, e, r');
    SameNamed(e, r, e, r');
    BehindKeeps(job, h, e, r, e, r');
  }

  /** A worker that reports a fatal error needs nothing more of the directory than what crash recovery needs. */
  lemma FatalKeeps(job: Job, h: Hyp, e: Env, r: Run, r': Run)
    requires RunOk(job, h, e, r) && r'.fatal && r'.fin.Idle?
    requires r' == r.(txn := r'.txn, produceErr := r'.produceErr, waiting := r'.waiting, fin := r'.fin, fatal := r'.fatal)
    ensures RunOk(job, h, e, r')
  {
    assert UnfoldRun(r);
    SameNamed(e, r, e, r');
    BehindKeeps(job, h, e, r, e, r');
  }

  // ---- Committing and aborting ----------------------------------------------------------

  /** A barrier leaves the execution where it is. */
  lemma BarrierCut(u: Upstream, id: Id)
    requires Shape(u) && Linked(u) && id in u.at && u.at[id] < |u.done|
    ensures u.cuts[u.at[id] + 1] == u.cuts[u.at[id]]
  {
    assert u.input[u.at[id]] == Bar(id);
  }

  /** The positions and the state at a cut make the checkpoint of that cut. */
  lemma CutTaken(job: Job, h: Hyp, t: Trace, pos: seq<nat>, c: Checkpoint)
    requires CutOk(job, t, pos) && Tracks(h, pos, c.offsets) && c.state == StateAfter(job, t)
    ensures CheckpointAt(job, h, c, t)
  {
    forall p: nat | p in c.offsets ensures c.offsets[p] == Reads(t, p) {
      assert c.offsets[p] == Position(pos, p);
    }
  }

  lemma ReadyForm(job: Job, h: Hyp, e: Env, r: Run)
    requires RunOk(job, h, e, r) && r.fin.Ready?
    ensures !r.fatal && Finalizing(job, h, e, r) && e.inflight.None? && StoredAs(e.dir, r.fin.c) && r.fin.c.id !in e.markers
    ensures Shape(r.up) && Linked(r.up) && Executed(job, r.up) && CheckpointOf(job, h, r.up, r.fin.c)
    ensures r.sunk <= r.up.tapped && r.up.at[r.fin.c.id] + 1 == r.sunk && Staged(e, r) && !r.produceErr
  {
    assert UnfoldRun(r);
  }

  /** The requested commit carries exactly the output of its barrier's cut. */
  lemma CommitInflight(job: Job, h: Hyp, e: Env, r: Run, e': Env)
    requires RunOk(job, h, e, r) && r.fin.Ready? && r.fin.c.id in r.up.at && r.up.at[r.fin.c.id] < |r.up.cuts|
    requires e' == e.(inflight := Some(Txn(r.fin.c.id, r.txn, r.up.cuts[r.up.at[r.fin.c.id]])))
    ensures InflightOk(job, h, e') && r.sunk < |r.up.cuts| && e'.inflight.value.trace == r.up.cuts[r.sunk]
  {
    ReadyForm(job, h, e, r);
    var c, n := r.fin.c, r.up.at[r.fin.c.id];
    BarrierCut(r.up, c.id);
    assert CutOk(job, r.up.cuts[n], r.up.seen[n]);
    CutTaken(job, h, r.up.cuts[n], r.up.seen[n], c);
  }

  lemma CommitEnv(job: Job, h: Hyp, e: Env, e': Env)
    requires EnvOk(job, h, e) && e' == e.(inflight := e'.inflight) && InflightOk(job, h, e')
    ensures EnvOk(job, h, e')
  {
    assert UnfoldEnv(e);
    assert EnvFacts(job, h, e');
  }

  lemma CommitRun(job: Job, h: Hyp, e: Env, r: Run, e': Env, r': Run)
    requires RunOk(job, h, e, r) && r.fin.Ready? && r' == r.(fin := Ending(r.fin.c))
    requires e' == e.(inflight := e'.inflight) && e'.inflight.Some? && r.sunk < |r.up.cuts|
    requires e'.inflight.value == Txn(r.fin.c.id, r.txn, r.up.cuts[r.sunk])
    ensures RunOk(job, h, e', r')
  {
    ReadyForm(job, h, e, r);
    assert UnfoldRun(r);
    FinMoves(job, h, e, r, e', r');
    SameNamed(e, r, e', r');
    BehindKeeps(job, h, e, r, e', r');
  }

  lemma CommitKeeps(job: Job, h: Hyp, e: Env, r: Run, e': Env, r': Run)
    requires EnvOk(job, h, e) && RunOk(job, h, e, r) && r.fin.Ready? && r.fin.c.id in r.up.at && r.up.at[r.fin.c.id] < |r.up.cuts|
    requires e' == e.(inflight := Some(Txn(r.fin.c.id, r.txn, r.up.cuts[r.up.at[r.fin.c.id]]))) && r' == r.(fin := Ending(r.fin.c))
    ensures EnvOk(job, h, e') && RunOk(job, h, e', r')
  {
    CommitInflight(job, h, e, r, e');
    CommitEnv(job, h, e, e');
    CommitRun(job, h, e, r, e', r');
  }

  ghost predicate Acknowledges(r: Run, r': Run) {
    r.fin.Ending? && r' == r.(txn := [], produceErr := false, waiting := Signal(r.waiting, r.fin.c.id),
                              fin := Promoting(r.fin.c.(status := Completed), ToFile))
  }

  lemma CommitOkHandshake(job: Job, h: Hyp, e: Env, r: Run, r': Run)
    requires Shape(r.up) && r.sunk <= r.up.tapped && Handshake(job, h, r) && Staged(e, r) && Acknowledges(r, r') && r.fin.c.id in e.markers
    ensures Behind(r, r') && Handshake(job, h, r') && Staged(e, r')
  {
    assert e.visible + [] == e.visible;
  }

  lemma CommitOkFinalizing(job: Job, h: Hyp, e: Env, r: Run, r': Run)
    requires EnvOk(job, h, e) && Finalizing(job, h, e, r) && e.inflight.None? && Acknowledges(r, r') && r.fin.c.id in e.markers
    ensures Finalizing(job, h, e, r')
  {
    assert UnfoldEnv(e);
    var c := r.fin.c;
    assert c.(status := Completed).(status := Prepared) == c;
  }

  lemma CommitOkKeeps(job: Job, h: Hyp, e: Env, r: Run, r': Run)
    requires EnvOk(job, h, e) && RunOk(job, h, e, r) && Acknowledges(r, r') && e.inflight.None? && r.fin.c.id in e.markers
    ensures RunOk(job, h, e, r')
  {
    assert UnfoldRun(r);
    CommitOkHandshake(job, h, e, r, r');
    CommitOkFinalizing(job, h, e, r, r');
    SameNamed(e, r, e, r');
    BehindKeeps(job, h, e, r, e, r');
  }

  // ---- Every step of the worker --------------------------------------------------------------

  /** The steps that write. */
  lemma WritesKeep(job: Job, h: Hyp, w: World, l: Label, w': World)
    requires Inv(job, h, w) && w.proc.Running? && l.Write? && Finalize(job, w.env, w.proc.r, l) == Some(w')
    ensures Inv(job, h, w')
  {
    var e, r, e', r' := w.env, w.proc.r, w'.env, w'.proc.r;
    if r.fin.Saving? {
      SaveWriteKeeps(job, h, e, r, e', r');
    } else {
      PromoteWriteKeeps(job, h, e, r, e', r');
      if h.atomicPromote {
        PromoteWritePointed(job, h, e, r);
      }
    }
    Assemble(job, h, e', r');
  }

  lemma EvictsKeep(job: Job, h: Hyp, w: World, l: Label, w': World)
    requires Inv(job, h, w) && w.proc.Running? && l.EvictOne? && Finalize(job, w.env, w.proc.r, l) == Some(w')
    ensures Inv(job, h, w')
  {
    EvictOneKeeps(job, h, w.env, w.proc.r, l.v, w'.env);
    Assemble(job, h, w'.env, w'.proc.r);
  }

  /** The steps on the way to a persisted checkpoint. */
  lemma SavesKeep(job: Job, h: Hyp, w: World, l: Label, w': World)
    requires Base(h) && Inv(job, h, w) && w.proc.Running? && Meets(h, w, l) && (l.Take? || l.SaveDone? || l.SaveFail?)
    requires Finalize(job, w.env, w.proc.r, l) == Some(w')
    ensures Inv(job, h, w')
  {
    var e, r, r' := w.env, w.proc.r, w'.proc.r;
    if l.Take? {
      TakeKeeps(job, h, e, r, l.time, r');
    } else if l.SaveDone? {
      SaveDoneKeeps(job, h, e, r, r');
    } else if r.fin.Saving? {
      SaveFailKeeps(job, h, e, r, r');
    } else {
      FatalKeeps(job, h, e, r, r');
    }
    Assemble(job, h, e, r');
  }

  /** The steps around a transaction. */
  lemma EndsKeep(job: Job, h: Hyp, w: World, l: Label, w': World)
    requires Inv(job, h, w) && w.proc.Running? && (l.Commit? || l.CommitOk? || l.CommitErr? || l.AbortOk? || l.AbortErr?)
    requires Finalize(job, w.env, w.proc.r, l) == Some(w')
    ensures Inv(job, h, w')
  {
    var e, r, e', r' := w.env, w.proc.r, w'.env, w'.proc.r;
    if l.Commit? {
      CommitKeeps(job, h, e, r, e', r');
    } else if l.CommitOk? {
      CommitOkKeeps(job, h, e, r, r');
    } else {
      FatalKeeps(job, h, e, r, r');
    }
    Assemble(job, h, e', r');
  }

  lemma FinalizeKeeps(job: Job, h: Hyp, w: World, l: Label, w': World)
    requires Base(h) && Inv(job, h, w) && w.proc.Running? && Meets(h, w, l) && Finalize(job, w.env, w.proc.r, l) == Some(w')
    ensures Inv(job, h, w')
  {
    if l.Write? { WritesKeep(job, h, w, l, w'); }
    else if l.EvictOne? { EvictsKeep(job, h, w, l, w'); }
    else if l.Take? || l.SaveDone? || l.SaveFail? { SavesKeep(job, h, w, l, w'); }
    else { EndsKeep(job, h, w, l, w'); }
  }
}
