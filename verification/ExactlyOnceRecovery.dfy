/** Preservation of the invariant by recovery, crashes and the broker. */
module ExactlyOnceRecovery {
  import opened Prelude
  import opened CheckpointFiles
  import opened ExactlyOnce
  import opened ExactlyOnceInvariant

  // ---- The directory under eviction and writing ---------------------------------

  /** The newest done file is never a victim of retention. */
  lemma VictimIsBehind(d: Dir, retain: nat, v: Id) returns (x: Id)
    requires Readable(d) && Distinct(d) && Evictable(d, retain, v)
    ensures x != v && DoneFile(d, x) && DoneFile(d, v) && Earlier(d, v, x)
  {
    var rivals := Rivals(d, d.files[v].data);
    assert rivals != {};
    x :| x in rivals;
    assert d.files[v].data.id == v;
  }

  /** Retention leaves the latest checkpoint in place. */
  lemma EvictFiles(d: Dir, markers: set<Id>, nonce: nat, retain: nat, v: Id)
    requires FilesOk(d, markers, nonce) && Evictable(d, retain, v)
    ensures FilesOk(Evict(d, v), markers, nonce)
    ensures d.latest != Some(v) && DoneFile(d, v)
  {
    var x := VictimIsBehind(d, retain, v);
    var d' := Evict(d, v);
    assert forall j :: DoneFile(d', j) ==> DoneFile(d, j);
  }

  lemma EvictTop(d: Dir, retain: nat, v: Id, n: Id)
    requires Readable(d) && Distinct(d) && Evictable(d, retain, v) && IsTop(Evict(d, v), n)
    ensures IsTop(d, n)
  {
    var x := VictimIsBehind(d, retain, v);
    assert DoneFile(Evict(d, v), x);
    forall j | DoneFile(d, j) && j != n ensures Earlier(d, j, n) {
      assert j != v ==> DoneFile(Evict(d, v), j);
    }
  }

  lemma EvictMatches(job: Job, h: Hyp, d: Dir, t: Trace, retain: nat, v: Id)
    requires Readable(d) && Distinct(d) && Evictable(d, retain, v)
    ensures TopAt(job, h, d, t) ==> TopAt(job, h, Evict(d, v), t)
    ensures AllWithin(job, h, d, t) ==> AllWithin(job, h, Evict(d, v), t)
  {
    var x := VictimIsBehind(d, retain, v);
    assert DoneFile(Evict(d, v), x);
    forall n | IsTop(Evict(d, v), n) ensures IsTop(d, n) {
      EvictTop(d, retain, v, n);
    }
    assert forall j :: DoneFile(Evict(d, v), j) ==> DoneFile(d, j);
  }

  lemma EvictPointed(d: Dir, retain: nat, v: Id)
    requires Readable(d) && Distinct(d) && Evictable(d, retain, v) && Pointed(d, {})
    ensures Pointed(Evict(d, v), {})
  {
    var x := VictimIsBehind(d, retain, v);
    var d' := Evict(d, v);
    assert forall j :: DoneFile(d', j) ==> DoneFile(d, j);
    assert d.completed.Some? && d.completed.value != v;
    assert DoneFile(d', d.completed.value);
  }

  /** What retention deletes is nothing recovery needs. */
  lemma EvictEnv(job: Job, h: Hyp, e: Env, v: Id)
    requires EnvOk(job, h, e) && Evictable(e.dir, job.retain, v)
    ensures EnvOk(job, h, e.(dir := Evict(e.dir, v)))
    ensures e.dir.latest != Some(v) && DoneFile(e.dir, v)
  {
    assert UnfoldEnv(e);
    EvictFiles(e.dir, e.markers, e.nonce, job.retain, v);
    EvictMatches(job, h, e.dir, e.trace, job.retain, v);
    assert EnvFacts(job, h, e.(dir := Evict(e.dir, v)));
  }

  /** A change of pointers alone. */
  lemma SamePointed(job: Job, h: Hyp, e: Env, e': Env)
    requires EnvOk(job, h, e) && e' == e.(dir := e.dir.(completed := e'.dir.completed))
    ensures EnvOk(job, h, e')
  {
    assert UnfoldEnv(e);
    var d, d' := e.dir, e'.dir;
    assert forall i :: DoneFile(d', i) == DoneFile(d, i);
    assert forall n :: IsTop(d', n) == IsTop(d, n);
    assert FilesOk(d', e.markers, e.nonce);
    assert EnvFacts(job, h, e');
  }

  // ---- Steps of recovery -----------------------------------------------------------------

  /** The latest checkpoint, once done, is the newest done one. */
  lemma LatestIsTop(job: Job, h: Hyp, e: Env)
    requires EnvOk(job, h, e) && e.dir.latest.Some? && DoneFile(e.dir, e.dir.latest.value)
    ensures Quiet(e) && IsTop(e.dir, e.dir.latest.value)
    ensures CheckpointAt(job, h, e.dir.files[e.dir.latest.value].data, e.trace)
  {
    assert UnfoldEnv(e);
  }

  lemma NoInflight(job: Job, h: Hyp, e: Env)
    requires EnvOk(job, h, e) && (e.dir.latest.Some? ==> DoneFile(e.dir, e.dir.latest.value))
    ensures e.inflight.None?
  {
    assert UnfoldEnv(e);
  }

  /** A directory without a latest pointer: the scan finds prepared checkpoints alone. */
  lemma LoadUnled(job: Job, h: Hyp, e: Env, c: Checkpoint)
    requires EnvOk(job, h, e) && e.dir.latest.None? && LoadAnswers(e.dir, Some(c))
    ensures EnvOk(job, h, e.(dir := e.dir.(latest := Some(c.id)))) && c.status.Prepared?
    ensures c.id in e.dir.files && e.dir.files[c.id] == Good(c)
  {
    assert UnfoldEnv(e);
    var d := e.dir;
    assert Usable(d, false, c.id);
    assert !DoneFile(d, c.id);
    var d' := d.(latest := Some(c.id));
    assert forall i :: DoneFile(d', i) == DoneFile(d, i);
    assert forall n :: IsTop(d', n) == IsTop(d, n);
    assert EnvFacts(job, h, e.(dir := d'));
  }

  lemma LoadKeeps(job: Job, h: Hyp, w: World, r: Option<Checkpoint>, w': World)
    requires Inv(job, h, w) && w.proc.Down? && LoadAnswers(w.env.dir, r)
    requires w'.env == if r.Some? then w.env.(dir := w.env.dir.(latest := Some(r.value.id))) else w.env
    requires w'.proc == if r.Some? && !r.value.Done() then Probing(r.value) else Restoring(r)
    ensures Inv(job, h, w')
  {
    assert UnfoldEnv(w.env);
    var e := w.env;
    if e.dir.latest.Some? {
      assert Usable(e.dir, false, e.dir.latest.value);
      LoadLed(job, h, e, r.value);
    } else if r.Some? {
      LoadUnled(job, h, e, r.value);
    } else {
      LoadNone(job, h, e);
    }
  }

  lemma LoadNone(job: Job, h: Hyp, e: Env)
    requires EnvOk(job, h, e) && e.dir.latest.None? && LoadAnswers(e.dir, None)
    ensures PhaseOk(job, h, e, Restoring(None))
  {
    assert UnfoldEnv(e);
    assert forall i :: !DoneFile(e.dir, i) by { assert forall i :: !Usable(e.dir, false, i); }
  }

  lemma LoadLed(job: Job, h: Hyp, e: Env, c: Checkpoint)
    requires EnvOk(job, h, e) && StoredAs(e.dir, c)
    ensures e.(dir := e.dir.(latest := Some(c.id))) == e
    ensures c.Done() || c.status.Prepared?
    ensures PhaseOk(job, h, e, if c.Done() then Restoring(Some(c)) else Probing(c))
  {
    assert UnfoldEnv(e);
    if c.Done() {
      assert DoneFile(e.dir, c.id);
      LatestIsTop(job, h, e);
      NoInflight(job, h, e);
      WithinEnd(job, h, c, e.trace);
    }
  }

  /** Writing the completed pointer that a load answers keeps a pointer that was right. */
  lemma AnswerPointed(d: Dir, r: Checkpoint)
    requires Readable(d) && Pointed(d, {}) && CompletedAnswers(d, Some(r))
    ensures d.completed == Some(r.id)
  {
    if d.completed.Some? {
      assert DoneFile(d, d.completed.value);
    } else {
      assert DoneFile(d, r.id);
    }
  }

  lemma RepairKeeps(job: Job, h: Hyp, w: World, r: Checkpoint, e': Env)
    requires Inv(job, h, w) && w.proc.Down? && CompletedAnswers(w.env.dir, Some(r))
    requires e' == w.env.(dir := w.env.dir.(completed := Some(r.id)))
    ensures Inv(job, h, w.(env := e'))
  {
    assert UnfoldEnv(w.env);
    SamePointed(job, h, w.env, e');
    if h.atomicPromote {
      AnswerPointed(w.env.dir, r);
    }
  }

  lemma SweepKeeps(job: Job, h: Hyp, w: World, v: Id, e': Env)
    requires Inv(job, h, w) && w.proc.Down? && Evictable(w.env.dir, job.retain, v)
    requires e' == w.env.(dir := Evict(w.env.dir, v))
    ensures Inv(job, h, w.(env := e'))
  {
    assert UnfoldEnv(w.env);
    EvictEnv(job, h, w.env, v);
    if h.atomicPromote {
      EvictPointed(w.env.dir, job.retain, v);
    }
  }

  lemma ProbeKeeps(job: Job, h: Hyp, w: World, p': Process)
    requires Inv(job, h, w) && w.proc.Probing? && w.env.inflight.None?
    requires p' == if w.proc.c.id in w.env.markers then Completing(w.proc.c.(status := Completed), ToFile) else FallingBack
    ensures Inv(job, h, w.(proc := p'))
  {
    assert UnfoldEnv(w.env);
    var c := w.proc.c;
    assert c.(status := Completed).(status := Prepared) == c;
    assert c.id !in w.env.markers ==> Quiet(w.env);
  }

  // ---- Promotion -----------------------------------------------------------------------

  /** A checkpoint file moves from prepared to completed. */
  lemma PromoteFile(job: Job, h: Hyp, e: Env, c: Checkpoint, e': Env)
    requires EnvOk(job, h, e) && PromotingOk(job, h, e, c, ToFile) && e' == e.(dir := SaveWrite(e.dir, c, ToFile))
    ensures EnvOk(job, h, e')
  {
    assert UnfoldEnv(e);
    var d, d' := e.dir, e'.dir;
    assert forall j :: j != c.id ==> DoneFile(d', j) == DoneFile(d, j);
    assert DoneFile(d', c.id);
    PromoteFiles(d, e.markers, e.nonce, c);
    assert Durable(job, h, e') by {
      forall n | IsTop(d', n) ensures n == c.id {
      }
    }
    WithinEnd(job, h, c, e.trace);
    assert EnvFacts(job, h, e');
  }

  lemma PromoteFiles(d: Dir, markers: set<Id>, nonce: nat, c: Checkpoint)
    requires FilesOk(d, markers, nonce) && d.latest == Some(c.id) && c.status.Completed?
    requires c.id in d.files && d.files[c.id] == Good(c.(status := Prepared))
    ensures FilesOk(SaveWrite(d, c, ToFile), markers, nonce)
  {
    var d' := SaveWrite(d, c, ToFile);
    assert forall i :: i in d'.files ==> i in d.files && d'.files[i].data.time == d.files[i].data.time;
    assert forall j :: j != c.id ==> DoneFile(d', j) == DoneFile(d, j);
  }

  /** One write of a promotion. */
  lemma PromoteWrite(job: Job, h: Hyp, e: Env, c: Checkpoint, stage: Stage, e': Env)
    requires EnvOk(job, h, e) && PromotingOk(job, h, e, c, stage) && !stage.ToRetain?
    requires e' == e.(dir := SaveWrite(e.dir, c, stage))
    ensures EnvOk(job, h, e') && PromotingOk(job, h, e', c, NextStage(c, stage))
  {
    match stage
    case ToFile => PromoteFile(job, h, e, c, e');
    case ToLatest => assert e'.dir == e.dir;
    case ToCompleted => SamePointed(job, h, e, e');
  }

  function Skipped(c: Checkpoint, stage: Stage): set<Id> {
    if Interrupted(stage) then {c.id} else {}
  }

  /** The checkpoint promoted is newer than every done one. */
  lemma PromotePointed(d: Dir, markers: set<Id>, c: Checkpoint, stage: Stage)
    requires Readable(d) && Led(d, markers) && d.latest == Some(c.id) && c.status.Completed? && !stage.ToRetain?
    requires c.id in d.files && d.files[c.id] == (if stage.ToFile? then Good(c.(status := Prepared)) else Good(c))
    requires Pointed(d, Skipped(c, stage))
    ensures Pointed(SaveWrite(d, c, stage), Skipped(c, NextStage(c, stage)))
  {
    var d' := SaveWrite(d, c, stage);
    assert forall j :: j != c.id ==> DoneFile(d', j) == DoneFile(d, j);
    assert DoneFile(d', c.id);
  }

  lemma CompleteWriteKeeps(job: Job, h: Hyp, w: World, w': World)
    requires Inv(job, h, w) && w.proc.Completing? && !w.proc.stage.ToRetain?
    requires w'.env == w.env.(dir := SaveWrite(w.env.dir, w.proc.c, w.proc.stage))
    requires w'.proc == Completing(w.proc.c, NextStage(w.proc.c, w.proc.stage))
    ensures Inv(job, h, w')
  {
    assert UnfoldEnv(w.env);
    PromoteWrite(job, h, w.env, w.proc.c, w.proc.stage, w'.env);
    if h.atomicPromote {
      PromotePointed(w.env.dir, w.env.markers, w.proc.c, w.proc.stage);
    }
  }

  lemma EvictPromoting(job: Job, h: Hyp, e: Env, c: Checkpoint, v: Id)
    requires PromotingOk(job, h, e, c, ToRetain) && v != c.id
    ensures PromotingOk(job, h, e.(dir := Evict(e.dir, v)), c, ToRetain)
  {
  }

  lemma CompleteEvictKeeps(job: Job, h: Hyp, w: World, v: Id, e': Env)
    requires Inv(job, h, w) && w.proc.Completing? && w.proc.stage.ToRetain? && Evictable(w.env.dir, job.retain, v)
    requires e' == w.env.(dir := Evict(w.env.dir, v))
    ensures Inv(job, h, w.(env := e'))
  {
    assert UnfoldEnv(w.env);
    EvictEnv(job, h, w.env, v);
    EvictPromoting(job, h, w.env, w.proc.c, v);
    if h.atomicPromote {
      EvictPointed(w.env.dir, job.retain, v);
    }
  }

  lemma CompleteDoneKeeps(job: Job, h: Hyp, w: World, p': Process)
    requires Inv(job, h, w) && w.proc.Completing? && w.proc.stage.ToRetain? && p' == Restoring(Some(w.proc.c))
    ensures Inv(job, h, w.(proc := p'))
  {
    assert UnfoldEnv(w.env);
    WithinEnd(job, h, w.proc.c, w.env.trace);
  }

  // ---- Falling back ------------------------------------------------------------------------

  /** What a scan answers is the newest done file. */
  lemma NewestIsTop(d: Dir, c: Checkpoint)
    requires Readable(d) && Distinct(d) && Newest(d, true, c)
    ensures IsTop(d, c.id)
  {
  }

  lemma PointedIsTop(d: Dir)
    requires Pointed(d, {}) && d.completed.Some?
    ensures IsTop(d, d.completed.value)
  {
  }

  /** A fallback answers a done file, and the newest one when its pointer is right. */
  lemma FallBackAnswer(job: Job, h: Hyp, e: Env, r: Option<Checkpoint>)
    requires EnvOk(job, h, e) && Quiet(e) && CompletedAnswers(e.dir, r)
    requires h.current ==> Current(e.dir)
    requires h.atomicPromote ==> Pointed(e.dir, {})
    ensures RestoreOk(job, h, r, e.trace)
  {
    assert UnfoldEnv(e);
    if r.Some? {
      assert DoneFile(e.dir, r.value.id);
      if Fixed(h) {
        if h.current {
          NewestIsTop(e.dir, r.value);
        } else {
          AnswerPointed(e.dir, r.value);
          PointedIsTop(e.dir);
        }
      }
    } else {
      assert forall i :: !DoneFile(e.dir, i);
    }
  }

  lemma FallBackKeeps(job: Job, h: Hyp, w: World, r: Option<Checkpoint>, w': World)
    requires Inv(job, h, w) && w.proc.FallingBack? && CompletedAnswers(w.env.dir, r) && (h.current ==> Current(w.env.dir))
    requires w'.env == if r.Some? then w.env.(dir := w.env.dir.(completed := Some(r.value.id))) else w.env
    requires w'.proc == Restoring(r)
    ensures Inv(job, h, w')
  {
    assert UnfoldEnv(w.env);
    FallBackAnswer(job, h, w.env, r);
    SamePointed(job, h, w.env, w'.env);
    if h.atomicPromote && r.Some? {
      AnswerPointed(w.env.dir, r.value);
    }
  }

  // ---- Starting a run ------------------------------------------------------------------------

  /** An execution reads nothing outside the source's partitions. */
  lemma {:induction false} NoReadsOutside(job: Job, t: Trace, p: nat)
    requires Execution(job, t) && p >= |job.log|
    ensures Reads(t, p) == 0
  {
    if t != [] { NoReadsOutside(job, t[..|t| - 1], p); }
  }

  lemma FreshStreams(job: Job, h: Hyp, from: Option<Checkpoint>, nonce: nat, t: Trace)
    requires Execution(job, t) && Selects(job, from, t)
    ensures UpOk(job, h, Fresh(job, h.carriesOver, from, nonce, t).up)
  {
    var u := Fresh(job, h.carriesOver, from, nonce, t).up;
    var stored := if from.Some? then from.value.offsets else map[];
    forall p: nat ensures Reads(t, p) == Position(u.pos, p) == Resume(stored, p) {
      assert Reads(t, p) == Resume(stored, p);
      if p >= |job.log| { NoReadsOutside(job, t, p); }
    }
    assert CutOk(job, u.cuts[0], u.seen[0]);
  }

  lemma FreshRun(job: Job, h: Hyp, e: Env, from: Option<Checkpoint>, e': Env)
    requires EnvOk(job, h, e) && Quiet(e) && e.inflight.None? && Selects(job, from, e.trace) && e' == e.(nonce := e.nonce + 1)
    ensures RunOk(job, h, e', Fresh(job, h.carriesOver, from, e.nonce, e.trace))
  {
    assert UnfoldEnv(e);
    FreshStreams(job, h, from, e.nonce, e.trace);
    assert e.visible + [] == e.visible;
    assert RunFacts(job, h, e', Fresh(job, h.carriesOver, from, e.nonce, e.trace));
  }

  lemma NextNonce(job: Job, h: Hyp, e: Env, e': Env)
    requires EnvOk(job, h, e) && e' == e.(nonce := e.nonce + 1)
    ensures EnvOk(job, h, e')
  {
    assert UnfoldEnv(e);
    assert EnvFacts(job, h, e');
  }

  lemma LaunchKeeps(job: Job, h: Hyp, w: World, e': Env, r: Run)
    requires Inv(job, h, w) && w.proc.Restoring? && Selects(job, w.proc.from, w.env.trace)
    requires e' == w.env.(nonce := w.env.nonce + 1) && r == Fresh(job, h.carriesOver, w.proc.from, w.env.nonce, w.env.trace)
    ensures Inv(job, h, World(e', Running(r)))
  {
    NextNonce(job, h, w.env, e');
    FreshRun(job, h, w.env, w.proc.from, e');
    Started(job, h, w, e', r);
  }

  lemma Started(job: Job, h: Hyp, w: World, e': Env, r: Run)
    requires w.proc.Restoring? && (h.atomicPromote ==> Pointed(w.env.dir, Window(w.proc)))
    requires EnvOk(job, h, e') && e'.dir == w.env.dir && RunOk(job, h, e', r) && r.fin.Idle?
    ensures Inv(job, h, World(e', Running(r)))
  {
  }

  // ---- The environment -----------------------------------------------------------------------

  lemma CrashKeeps(job: Job, h: Hyp, w: World)
    requires Inv(job, h, w) && (h.atomicPromote ==> !MidPromotion(w.proc))
    ensures Inv(job, h, w.(proc := Down))
  {
  }

  /** The broker after it has decided the transaction in flight. */
  function Decided(e: Env, commit: bool): Env
    requires e.inflight.Some?
  {
    var x := e.inflight.value;
    if commit then e.(visible := e.visible + x.outs, markers := e.markers + {x.id}, trace := x.trace, inflight := None)
    else e.(inflight := None)
  }

  lemma DecideEnv(job: Job, h: Hyp, e: Env, commit: bool, e': Env)
    requires EnvOk(job, h, e) && e.inflight.Some? && e' == Decided(e, commit)
    ensures EnvOk(job, h, e')
  {
    assert UnfoldEnv(e);
    var x := e.inflight.value;
    assert x.id in e.dir.files;
    forall i | DoneFile(e.dir, i) ensures Within(job, h, e.dir.files[i].data, e'.trace) {
      WithinGrows(job, h, e.dir.files[i].data, e.trace, e'.trace);
    }
    assert EnvFacts(job, h, e');
  }

  lemma DecideNamed(e: Env, e': Env, r: Run)
    requires Named(e, r) && e.inflight.Some? && e.inflight.value.id in e.dir.files
    requires e'.dir == e.dir && e'.nonce == e.nonce && e'.markers <= e.markers + {e.inflight.value.id}
    ensures Named(e', r)
  {
  }

  lemma DecideStaged(job: Job, h: Hyp, e: Env, e': Env, r: Run, commit: bool)
    requires Shape(r.up) && r.sunk <= r.up.tapped && Staged(e, r) && e.inflight.Some?
    requires !r.fatal ==> Finalizing(job, h, e, r) && e.inflight.value.id !in e.markers
    requires e' == Decided(e, commit)
    ensures Staged(e', r)
  {
  }

  lemma DecideFinalizing(job: Job, h: Hyp, e: Env, e': Env, r: Run)
    requires Finalizing(job, h, e, r) && e.inflight.Some? && e'.dir == e.dir && e'.inflight.None?
    ensures Finalizing(job, h, e', r)
  {
  }

  lemma DecideRun(job: Job, h: Hyp, e: Env, e': Env, r: Run, commit: bool)
    requires RunOk(job, h, e, r) && InflightOk(job, h, e) && e.inflight.Some?
    requires e' == Decided(e, commit)
    ensures RunOk(job, h, e', r)
  {
    assert UnfoldRun(r);
    DecideNamed(e, e', r);
    DecideStaged(job, h, e, e', r, commit);
    if !r.fatal {
      DecideFinalizing(job, h, e, e', r);
    }
  }

  lemma DecidePhase(job: Job, h: Hyp, e: Env, commit: bool, e': Env, p: Process)
    requires PhaseOk(job, h, e, p) && InflightOk(job, h, e) && e.inflight.Some? && e' == Decided(e, commit)
    ensures PhaseOk(job, h, e', p)
  {
    if p.Running? {
      DecideRun(job, h, e, e', p.r, commit);
    }
  }

  lemma DecideKeeps(job: Job, h: Hyp, w: World, commit: bool, e': Env)
    requires Inv(job, h, w) && w.env.inflight.Some? && e' == Decided(w.env, commit)
    ensures Inv(job, h, w.(env := e'))
  {
    assert UnfoldEnv(w.env);
    DecideEnv(job, h, w.env, commit, e');
    DecidePhase(job, h, w.env, commit, e', w.proc);
  }

  // ---- Every step of recovery -------------------------------------------------------------

  /** The decision on the latest checkpoint. */
  lemma ResolveKeeps(job: Job, h: Hyp, w: World, l: Label, w': World)
    requires Base(h) && Inv(job, h, w) && Meets(h, w, l) && (l.Load? || l.Probe? || l.FallBack?)
    requires Recover(job, h.carriesOver, w, l) == Some(w')
    ensures Inv(job, h, w')
  {
    match l {
      case Load(r) => LoadKeeps(job, h, w, r, w');
      case Probe => ProbeKeeps(job, h, w, w'.proc);
      case FallBack(r) => FallBackKeeps(job, h, w, r, w');
      case _ =>
    }
  }

  /** Promotion by recovery. */
  lemma CompleteKeeps(job: Job, h: Hyp, w: World, l: Label, w': World)
    requires Inv(job, h, w) && (l.CompleteWrite? || l.CompleteEvict? || l.CompleteDone?)
    requires Recover(job, h.carriesOver, w, l) == Some(w')
    ensures Inv(job, h, w')
  {
    match l {
      case CompleteWrite => CompleteWriteKeeps(job, h, w, w');
      case CompleteEvict(v) => CompleteEvictKeeps(job, h, w, v, w'.env);
      case CompleteDone => CompleteDoneKeeps(job, h, w, w'.proc);
      case _ =>
    }
  }

  /** Housekeeping while no run is up. */
  lemma IdleKeeps(job: Job, h: Hyp, w: World, l: Label, w': World)
    requires Inv(job, h, w) && (l.RepairCompleted? || l.Sweep?)
    requires Recover(job, h.carriesOver, w, l) == Some(w')
    ensures Inv(job, h, w')
  {
    match l {
      case RepairCompleted(r) => RepairKeeps(job, h, w, r.value, w'.env);
      case Sweep(v) => SweepKeeps(job, h, w, v, w'.env);
      case _ =>
    }
  }

  lemma OutsideKeeps(job: Job, h: Hyp, w: World, l: Label, w': World)
    requires Inv(job, h, w) && Meets(h, w, l) && (l.Launch? || l.Crash? || l.Decide?) && (l.Launch? ==> LaunchOk(job, w))
    requires Recover(job, h.carriesOver, w, l) == Some(w')
    ensures Inv(job, h, w')
  {
    match l {
      case Launch => LaunchKeeps(job, h, w, w'.env, w'.proc.r);
      case Crash => CrashKeeps(job, h, w);
      case Decide(commit) => DecideKeeps(job, h, w, commit, w'.env);
      case _ =>
    }
  }

  lemma RecoverKeeps(job: Job, h: Hyp, w: World, l: Label, w': World)
    requires Base(h) && Inv(job, h, w) && Meets(h, w, l) && (l.Launch? ==> LaunchOk(job, w))
    requires Recover(job, h.carriesOver, w, l) == Some(w')
    ensures Inv(job, h, w')
  {
    if l.Load? || l.Probe? || l.FallBack? {
      ResolveKeeps(job, h, w, l, w');
    } else if l.CompleteWrite? || l.CompleteEvict? || l.CompleteDone? {
      CompleteKeeps(job, h, w, l, w');
    } else if l.RepairCompleted? || l.Sweep? {
      IdleKeeps(job, h, w, l, w');
    } else {
      OutsideKeeps(job, h, w, l, w');
    }
  }
}
