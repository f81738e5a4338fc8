/** Each condition of the exactly-once theorem is needed. */
module ExactlyOnceLimits {
  import opened Prelude
  import opened CheckpointFiles
  import opened ExactlyOnce
  import ExactlyOnceTheorem

  const A: Bytes := [1]
  const B: Bytes := [2]

  predicate CopyRel(s: Bytes, r: Bytes, s2: Bytes, outs: seq<Bytes>) {
    s2 == s + r && outs == [r]
  }

  /** Its source has no watermarks. */
  predicate NoMark(s: Bytes, t: int, s2: Bytes, outs: seq<Bytes>) { false }

  /** A job that copies its records to the output and keeps their concatenation as state. */
  function Copy(log: seq<seq<Bytes>>, retain: nat): Job {
    Job(log, [], CopyRel, NoMark, retain)
  }

  lemma {:induction false} CopyTotals(log: seq<seq<Bytes>>, retain: nat, t: Trace)
    requires Execution(Copy(log, retain), t) && |log| <= 2
    ensures |Outputs(t)| == |t| == Reads(t, 0) + Reads(t, 1)
  {
    if t != [] {
      CopyTotals(log, retain, t[..|t| - 1]);
      assert t[|t| - 1].src.Src? && t[|t| - 1].src.part < |log|;
    }
  }

  // ---- Stretches of a run -----------------------------------------------------------

  ghost predicate Closed(job: Job, h: Hyp, reach: iset<World>) {
    forall w, l :: w in reach && Step(job, h, w, l).Some? ==> Step(job, h, w, l).value in reach
  }

  /** `w` is one of a set of worlds that no step leaves. */
  ghost predicate At(job: Job, h: Hyp, reach: iset<World>, w: World) {
    Closed(job, h, reach) && w in reach
  }

  /** Some world of the set is not exactly-once. */
  ghost predicate Broken(job: Job, reach: iset<World>) {
    exists w :: w in reach && !ExactlyOnceIn(job, w)
  }

  lemma Go(job: Job, h: Hyp, reach: iset<World>, w: World, l: Label) returns (w': World)
    requires At(job, h, reach, w) && Step(job, h, w, l).Some?
    ensures At(job, h, reach, w') && w' == Step(job, h, w, l).value
  {
    w' := Step(job, h, w, l).value;
  }

  lemma GoFlow(job: Job, h: Hyp, reach: iset<World>, w: World, l: Label) returns (w': World)
    requires At(job, h, reach, w) && w.proc.Running? && Flows(l) && MeetsRun(h, w.env.dir, w.proc.r, l) && Flow(job, w.proc.r, l).Some?
    ensures At(job, h, reach, w') && w' == w.(proc := Running(Flow(job, w.proc.r, l).value))
  {
    w' := Go(job, h, reach, w, l);
  }

  lemma GoSink(job: Job, h: Hyp, reach: iset<World>, w: World, l: Label) returns (w': World)
    requires At(job, h, reach, w) && w.proc.Running? && Sinks(l) && Sink(w.proc.r, l).Some?
    ensures At(job, h, reach, w') && w' == w.(proc := Running(Sink(w.proc.r, l).value))
  {
    w' := Go(job, h, reach, w, l);
  }

  /** A step of the worker that no condition speaks about. */
  predicate Plain(l: Label) {
    l.Write? || l.EvictOne? || l.SaveDone? || l.Commit? || l.CommitOk? || l.AbortOk?
  }

  lemma GoWorker(job: Job, h: Hyp, reach: iset<World>, w: World, l: Label) returns (w': World)
    requires At(job, h, reach, w) && w.proc.Running? && Plain(l) && Finalize(job, w.env, w.proc.r, l).Some?
    ensures At(job, h, reach, w') && w' == Finalize(job, w.env, w.proc.r, l).value
  {
    w' := Go(job, h, reach, w, l);
  }

  lemma GoTake(job: Job, h: Hyp, reach: iset<World>, w: World, time: int) returns (w': World)
    requires At(job, h, reach, w) && w.proc.Running? && MeetsRun(h, w.env.dir, w.proc.r, Take(time))
    requires Finalize(job, w.env, w.proc.r, Take(time)).Some?
    ensures At(job, h, reach, w') && w' == Finalize(job, w.env, w.proc.r, Take(time)).value
  {
    w' := Go(job, h, reach, w, Take(time));
  }

  lemma GoRecover(job: Job, h: Hyp, reach: iset<World>, w: World, l: Label) returns (w': World)
    requires At(job, h, reach, w) && (l.Load? || l.Launch? || l.Decide?) && Recover(job, h.carriesOver, w, l).Some?
    ensures At(job, h, reach, w') && w' == Recover(job, h.carriesOver, w, l).value
  {
    w' := Go(job, h, reach, w, l);
  }

  lemma GoCrash(job: Job, h: Hyp, reach: iset<World>, w: World) returns (w': World)
    requires At(job, h, reach, w) && !w.proc.Down? && (h.atomicPromote ==> !MidPromotion(w.proc))
    ensures At(job, h, reach, w') && w' == w.(proc := Down)
  {
    w' := Go(job, h, reach, w, Crash);
  }

  lemma GoProbe(job: Job, h: Hyp, reach: iset<World>, w: World) returns (w': World)
    requires At(job, h, reach, w) && w.proc.Probing? && w.proc.c.id !in w.env.markers && (h.settled ==> w.env.inflight.None?)
    ensures At(job, h, reach, w') && w' == w.(proc := FallingBack)
  {
    w' := Go(job, h, reach, w, Probe);
  }

  lemma GoFallBack(job: Job, h: Hyp, reach: iset<World>, w: World, r: Option<Checkpoint>) returns (w': World)
    requires At(job, h, reach, w) && w.proc.FallingBack? && CompletedAnswers(w.env.dir, r) && (h.current ==> Current(w.env.dir))
    ensures At(job, h, reach, w') && w'.env.visible == w.env.visible && w'.proc == Restoring(r)
  {
    w' := Go(job, h, reach, w, FallBack(r));
  }

  /** Everything read has been processed and nothing is pending. */
  ghost predicate Drained(job: Job, r: Run) {
    && |r.up.pos| == |job.log| && |r.up.done| == |r.up.input| == r.up.tapped == r.sunk && |r.up.cuts| == |r.up.done| + 1
    && r.up.snaps == map[] && r.pending == map[] && r.events == [] && r.waiting.None? && r.fin.Idle?
    && !r.produceErr && r.txn == []
  }

  /** A record of partition `p` and a barrier enter the stream. */
  lemma ReadOne(job: Job, h: Hyp, reach: iset<World>, w: World, p: nat) returns (w': World)
    requires At(job, h, reach, w) && w.proc.Running? && p < |job.log| && p < |w.proc.r.up.pos| && w.proc.r.up.pos[p] < |job.log[p]|
    requires h.rereads ==> Reread(w.proc.r.up.pos, w.proc.r.up.offsets[p := w.proc.r.up.pos[p] + 1])
    ensures At(job, h, reach, w') && w'.proc.Running?
    ensures var r := w.proc.r; var id := Id(r.up.nonce, r.up.count + 1, Periodic);
            var pos := r.up.pos[p := r.up.pos[p] + 1]; var offsets := r.up.offsets[p := r.up.pos[p] + 1];
            w' == w.(proc := Running(r.(
              up := r.up.(pos := pos, offsets := offsets, count := r.up.count + 1,
                          input := (r.up.input + [Item(Src(p, r.up.pos[p]))]) + [Bar(id)],
                          seen := (r.up.seen + [pos]) + [pos], at := r.up.at[id := |r.up.input| + 1]),
              pending := r.pending[id := PendingOf(r.pending, id).(offsets := Some(offsets))])))
  {
    w' := GoFlow(job, h, reach, w, Read(p));
    w' := GoFlow(job, h, reach, w', Inject(Periodic));
  }

  /** The operators copy one record and snapshot at the barrier behind it. */
  lemma OperateOne(job: Job, h: Hyp, reach: iset<World>, w: World, s: Src, id: Id) returns (w': World)
    requires At(job, h, reach, w) && w.proc.Running? && job == Copy(job.log, job.retain)
    requires s.Src? && s.part < |job.log| && s.off < |job.log[s.part]|
    requires var r := w.proc.r;
             && |r.up.done| + 2 == |r.up.input| && r.up.input[|r.up.done|] == Item(s) && r.up.input[|r.up.done| + 1] == Bar(id)
             && r.up.snaps == map[] && r.up.cuts != []
    ensures At(job, h, reach, w') && w'.proc.Running?
    ensures var r := w.proc.r; var rec := job.log[s.part][s.off]; var st := r.up.state + rec;
            var cut := Last(r.up.cuts) + [Event(s, st, [rec])];
            w' == w.(proc := Running(r.(
              up := r.up.(done := (r.up.done + [Result(st, [rec])]) + [Result(st, [])], state := st,
                          cuts := (r.up.cuts + [cut]) + [cut], snaps := map[id := st]))))
  {
    var rec := job.log[s.part][s.off];
    w' := GoFlow(job, h, reach, w, OnRecord(w.proc.r.up.state + rec, [rec]));
    w' := GoFlow(job, h, reach, w', OnBarrier(id));
  }

  /** The tap passes one record and collects the operator state at the barrier behind it. */
  lemma TapOne(job: Job, h: Hyp, reach: iset<World>, w: World, id: Id) returns (w': World)
    requires At(job, h, reach, w) && w.proc.Running?
    requires var r := w.proc.r;
             && |r.up.done| == |r.up.input| >= r.up.tapped + 2 && r.up.input[r.up.tapped].Item? && r.up.input[r.up.tapped + 1] == Bar(id)
             && (id in r.up.snaps ==> r.up.snaps[id] == r.up.state) && id in r.pending
    ensures At(job, h, reach, w') && w'.proc.Running?
    ensures var r := w.proc.r;
            w' == w.(proc := Running(r.(
              up := r.up.(tapped := r.up.tapped + 2, snaps := r.up.snaps - {id}),
              pending := r.pending[id := r.pending[id].(state := Some(r.up.state))])))
  {
    w' := TapRecord(job, h, reach, w);
    w' := TapBarrier(job, h, reach, w', id);
  }

  lemma TapRecord(job: Job, h: Hyp, reach: iset<World>, w: World) returns (w': World)
    requires At(job, h, reach, w) && w.proc.Running?
    requires var u := w.proc.r.up; u.tapped < |u.done| && u.tapped < |u.input| && u.input[u.tapped].Item?
    ensures At(job, h, reach, w') && w' == w.(proc := Running(w.proc.r.(up := w.proc.r.up.(tapped := w.proc.r.up.tapped + 1))))
  {
    w' := GoFlow(job, h, reach, w, Tap);
  }

  lemma TapBarrier(job: Job, h: Hyp, reach: iset<World>, w: World, id: Id) returns (w': World)
    requires At(job, h, reach, w) && w.proc.Running?
    requires var r := w.proc.r;
             && r.up.tapped < |r.up.done| && r.up.tapped < |r.up.input| && r.up.input[r.up.tapped] == Bar(id)
             && (id in r.up.snaps ==> r.up.snaps[id] == r.up.state) && id in r.pending
    ensures At(job, h, reach, w')
    ensures var r := w.proc.r;
            w' == w.(proc := Running(r.(
              up := r.up.(tapped := r.up.tapped + 1, snaps := r.up.snaps - {id}),
              pending := r.pending[id := r.pending[id].(state := Some(r.up.state))])))
  {
    w' := GoFlow(job, h, reach, w, Tap);
  }

  /** The sink takes one record and flushes at the barrier behind it; `ok` is the outcome of the flush. */
  lemma FlushOne(job: Job, h: Hyp, reach: iset<World>, w: World, id: Id, ok: bool) returns (w': World)
    requires At(job, h, reach, w) && w.proc.Running?
    requires var r := w.proc.r;
             && |r.up.done| == |r.up.input| >= r.up.tapped == r.sunk + 2 && r.up.input[r.sunk].Item? && r.up.input[r.sunk + 1] == Bar(id)
             && id in r.pending && r.waiting.None? && !r.produceErr
    ensures At(job, h, reach, w') && w'.proc.Running?
    ensures var r := w.proc.r;
            w' == w.(proc := Running(r.(
              sunk := r.sunk + 2, txn := r.txn + r.up.done[r.sunk].outs, waiting := Some(id), events := r.events + [id],
              pending := r.pending[id := r.pending[id].(err := !ok)])))
  {
    w' := GoSink(job, h, reach, w, Produce(true));
    w' := GoSink(job, h, reach, w', Prepare(ok));
  }

  lemma SinkOne(job: Job, h: Hyp, reach: iset<World>, w: World, id: Id, ok: bool) returns (w': World)
    requires At(job, h, reach, w) && w.proc.Running?
    requires var r := w.proc.r;
             && |r.up.done| == |r.up.input| >= r.up.tapped + 2 && r.up.tapped == r.sunk
             && r.up.input[r.sunk].Item? && r.up.input[r.sunk + 1] == Bar(id)
             && (id in r.up.snaps ==> r.up.snaps[id] == r.up.state) && id in r.pending
             && r.waiting.None? && !r.produceErr
    ensures At(job, h, reach, w') && w'.proc.Running?
    ensures var r := w.proc.r;
            w' == w.(proc := Running(r.(
              up := r.up.(tapped := r.up.tapped + 2, snaps := r.up.snaps - {id}),
              sunk := r.sunk + 2, txn := r.txn + r.up.done[r.sunk].outs,
              pending := r.pending[id := Pending(r.pending[id].offsets, Some(r.up.state), !ok)],
              waiting := Some(id), events := r.events + [id])))
  {
    w' := TapOne(job, h, reach, w, id);
    w' := FlushOne(job, h, reach, w', id, ok);
    assert w'.proc.r.pending == w.proc.r.pending[id := Pending(w.proc.r.pending[id].offsets, Some(w.proc.r.up.state), !ok)];
  }

  lemma TakeOne(job: Job, h: Hyp, reach: iset<World>, w: World, id: Id, time: int) returns (w': World)
    requires At(job, h, reach, w) && w.proc.Running? && (h.clockAdvances ==> Later(w.env.dir, time))
    requires var r := w.proc.r;
             && r.events == [id] && r.fin.Idle? && (h.fatalStops ==> !r.fatal)
             && id in r.pending && !r.pending[id].err && r.pending[id].offsets.Some? && r.pending[id].state.Some?
    ensures At(job, h, reach, w') && w'.proc.Running?
    ensures var r := w.proc.r;
            var c := Checkpoint(id, time, Prepared, r.pending[id].offsets.value, r.pending[id].state.value);
            w' == w.(proc := Running(r.(events := [], pending := r.pending - {id}, fin := Saving(c, ToFile))))
  {
    w' := GoTake(job, h, reach, w, time);
    assert w'.proc.r.events == [];
  }

  /** The worker persists the prepared checkpoint it has taken. */
  lemma SaveOne(job: Job, h: Hyp, reach: iset<World>, w: World) returns (w': World)
    requires At(job, h, reach, w) && w.proc.Running?
    requires var r := w.proc.r; r.fin.Saving? && r.fin.stage.ToFile? && r.fin.c.status.Prepared?
    ensures At(job, h, reach, w') && w'.proc.Running?
    ensures var c := w.proc.r.fin.c;
            w' == World(w.env.(dir := w.env.dir.(files := w.env.dir.files[c.id := Good(c)], latest := Some(c.id))),
                        Running(w.proc.r.(fin := Ready(c))))
  {
    w' := GoWorker(job, h, reach, w, Write);
    w' := GoWorker(job, h, reach, w', Write);
    w' := GoWorker(job, h, reach, w', SaveDone);
  }

  /** The transaction commits and the sink goes on; the promotion has not begun. */
  lemma CommitOne(job: Job, h: Hyp, reach: iset<World>, w: World) returns (w': World)
    requires At(job, h, reach, w) && w.proc.Running? && w.env.inflight.None?
    requires var r := w.proc.r;
             r.fin.Ready? && r.fin.c.id in r.up.at && r.up.at[r.fin.c.id] < |r.up.cuts| && r.waiting == Some(r.fin.c.id) && !r.produceErr
    ensures At(job, h, reach, w') && w'.proc.Running?
    ensures var r := w.proc.r; var c := r.fin.c;
            w' == World(w.env.(visible := w.env.visible + r.txn, markers := w.env.markers + {c.id}, trace := r.up.cuts[r.up.at[c.id]]),
                        Running(r.(txn := [], waiting := None, fin := Promoting(c.(status := Completed), ToFile))))
  {
    w' := GoWorker(job, h, reach, w, Commit);
    w' := GoRecover(job, h, reach, w', Decide(true));
    w' := GoWorker(job, h, reach, w', CommitOk);
  }

  /** The promotion runs to its end without deleting anything. */
  lemma PromoteOne(job: Job, h: Hyp, reach: iset<World>, w: World) returns (w': World)
    requires At(job, h, reach, w) && w.proc.Running?
    requires var r := w.proc.r; r.fin.Promoting? && r.fin.stage.ToFile? && r.fin.c.status.Completed?
    ensures At(job, h, reach, w') && w'.proc.Running?
    ensures var c := w.proc.r.fin.c;
            w' == World(w.env.(dir := Dir(w.env.dir.files[c.id := Good(c)], Some(c.id), Some(c.id))),
                        Running(w.proc.r.(fin := Promoting(c, ToRetain))))
  {
    w' := GoWorker(job, h, reach, w, Write);
    w' := GoWorker(job, h, reach, w', Write);
    w' := GoWorker(job, h, reach, w', Write);
  }

  /** The checkpoint that a drained run takes after reading one more record of partition `p`. */
  function NextCheckpoint(job: Job, r: Run, p: nat, time: int): Checkpoint
    requires p < |job.log| && p < |r.up.pos| && r.up.pos[p] < |job.log[p]|
  {
    Checkpoint(Id(r.up.nonce, r.up.count + 1, Periodic), time, Prepared, r.up.offsets[p := r.up.pos[p] + 1], r.up.state + job.log[p][r.up.pos[p]])
  }

  /** A drained run has read and staged one more record and persisted the checkpoint behind it as prepared. */
  ghost predicate StagedOne(job: Job, w: World, w': World, p: nat, time: int)
    requires w.proc.Running? && p < |job.log| && p < |w.proc.r.up.pos| && w.proc.r.up.pos[p] < |job.log[p]|
  {
    var r, c := w.proc.r, NextCheckpoint(job, w.proc.r, p, time);
    && w'.proc.Running?
    && w'.env == w.env.(dir := w.env.dir.(files := w.env.dir.files[c.id := Good(c)], latest := Some(c.id)))
    && var r' := w'.proc.r;
       && Drained(job, r'.(fin := Idle, waiting := None, txn := []))
       && r'.up.pos == r.up.pos[p := r.up.pos[p] + 1] && r'.up.offsets == c.offsets && r'.up.nonce == r.up.nonce && r'.up.count == r.up.count + 1
       && r'.up.state == c.state && r'.fatal == r.fatal && r'.fin == Ready(c) && r'.waiting == Some(c.id) && r'.txn == [job.log[p][r.up.pos[p]]]
       && c.id in r'.up.at && r'.up.at[c.id] < |r'.up.cuts|
  }

  /** One record and the barrier behind it have gone from the source to the sink, which waits at the barrier. */
  ghost predicate SunkOne(job: Job, w: World, w': World, p: nat, ok: bool)
    requires w.proc.Running? && p < |job.log| && p < |w.proc.r.up.pos| && w.proc.r.up.pos[p] < |job.log[p]|
  {
    var r, c := w.proc.r, NextCheckpoint(job, w.proc.r, p, 0);
    && w'.proc.Running? && w' == w.(proc := w'.proc)
    && var r' := w'.proc.r;
       && |r'.up.pos| == |job.log| && |r'.up.done| == |r'.up.input| == r'.up.tapped == r'.sunk && |r'.up.cuts| == |r'.up.done| + 1
       && r'.up.pos == r.up.pos[p := r.up.pos[p] + 1] && r'.up.offsets == c.offsets && r'.up.nonce == r.up.nonce && r'.up.count == r.up.count + 1
       && r'.up.state == c.state && r'.fin.Idle? && r'.waiting == Some(c.id) && r'.txn == [job.log[p][r.up.pos[p]]]
       && c.id in r'.up.at && r'.up.at[c.id] < |r'.up.cuts| && r'.up.snaps == map[] && r'.events == [c.id] && r'.fatal == r.fatal && !r'.produceErr
       && r'.pending == map[c.id := Pending(Some(c.offsets), Some(c.state), !ok)]
  }

  lemma ReadToSink(job: Job, h: Hyp, reach: iset<World>, w: World, p: nat, ok: bool) returns (w': World)
    requires At(job, h, reach, w) && w.proc.Running? && Drained(job, w.proc.r) && job == Copy(job.log, job.retain)
    requires p < |job.log| && w.proc.r.up.pos[p] < |job.log[p]|
    requires h.rereads ==> Reread(w.proc.r.up.pos, w.proc.r.up.offsets[p := w.proc.r.up.pos[p] + 1])
    ensures At(job, h, reach, w') && SunkOne(job, w, w', p, ok)
  {
    var v := ReadToTap(job, h, reach, w, p);
    w' := SinkOne(job, h, reach, v, NextCheckpoint(job, w.proc.r, p, 0).id, ok);
    SinkForm(job, w, v, w', p, ok);
  }

  lemma ReadToTap(job: Job, h: Hyp, reach: iset<World>, w: World, p: nat) returns (v: World)
    requires At(job, h, reach, w) && w.proc.Running? && Drained(job, w.proc.r) && job == Copy(job.log, job.retain)
    requires p < |job.log| && w.proc.r.up.pos[p] < |job.log[p]|
    requires h.rereads ==> Reread(w.proc.r.up.pos, w.proc.r.up.offsets[p := w.proc.r.up.pos[p] + 1])
    ensures At(job, h, reach, v) && OperatedOne(job, w, v, p)
  {
    var u := w.proc.r.up;
    v := ReadOne(job, h, reach, w, p);
    v := OperateOne(job, h, reach, v, Src(p, u.pos[p]), Id(u.nonce, u.count + 1, Periodic));
  }

  /** One record and the barrier behind it have gone through the operators. */
  ghost predicate OperatedOne(job: Job, w: World, v: World, p: nat)
    requires w.proc.Running? && p < |job.log| && p < |w.proc.r.up.pos| && w.proc.r.up.pos[p] < |job.log[p]|
  {
    var r, u, c := w.proc.r, w.proc.r.up, NextCheckpoint(job, w.proc.r, p, 0);
    && v.proc.Running? && v.env == w.env
    && var r', u' := v.proc.r, v.proc.r.up;
       && r' == r.(up := u', pending := map[c.id := Pending(Some(c.offsets), None, false)])
       && u'.pos == u.pos[p := u.pos[p] + 1] && u'.offsets == c.offsets && u'.nonce == u.nonce && u'.count == u.count + 1
       && u'.state == c.state && u'.snaps == map[c.id := c.state] && u'.tapped == u.tapped
       && |u'.input| == |u.input| + 2 == |u'.done| && |u'.cuts| == |u'.done| + 1
       && u'.input[|u.input|].Item? && u'.input[|u.input| + 1] == Bar(c.id) && u'.done[|u.input|].outs == [job.log[p][u.pos[p]]]
       && c.id in u'.at && u'.at[c.id] == |u.input| + 1
  }

  lemma SinkForm(job: Job, w: World, v: World, w': World, p: nat, ok: bool)
    requires w.proc.Running? && Drained(job, w.proc.r) && p < |job.log| && w.proc.r.up.pos[p] < |job.log[p]| && OperatedOne(job, w, v, p)
    requires var r := v.proc.r; var id := NextCheckpoint(job, w.proc.r, p, 0).id;
             r.sunk < |r.up.done| && id in r.pending &&
             w' == v.(proc := Running(r.(
               up := r.up.(tapped := r.up.tapped + 2, snaps := r.up.snaps - {id}),
               sunk := r.sunk + 2, txn := r.txn + r.up.done[r.sunk].outs,
               pending := r.pending[id := Pending(r.pending[id].offsets, Some(r.up.state), !ok)],
               waiting := Some(id), events := r.events + [id])))
    ensures SunkOne(job, w, w', p, ok)
  {
    assert w'.proc.r.up.snaps == map[];
    assert w'.proc.r.txn == [job.log[p][w.proc.r.up.pos[p]]];
  }

  lemma Interval(job: Job, h: Hyp, reach: iset<World>, w: World, p: nat, time: int) returns (w': World)
    requires At(job, h, reach, w) && w.proc.Running? && Drained(job, w.proc.r) && job == Copy(job.log, job.retain)
    requires p < |job.log| && w.proc.r.up.pos[p] < |job.log[p]| && (h.clockAdvances ==> Later(w.env.dir, time))
    requires h.fatalStops ==> !w.proc.r.fatal
    requires h.rereads ==> Reread(w.proc.r.up.pos, w.proc.r.up.offsets[p := w.proc.r.up.pos[p] + 1])
    ensures At(job, h, reach, w') && StagedOne(job, w, w', p, time)
  {
    w' := ReadToSink(job, h, reach, w, p, true);
    w' := TakeOne(job, h, reach, w', NextCheckpoint(job, w.proc.r, p, 0).id, time);
    assert w'.proc.r.pending == map[];
    w' := SaveOne(job, h, reach, w');
  }

  /** A drained run has taken one more checkpoint all the way to completed. */
  ghost predicate CompletedOne(job: Job, w: World, w': World, p: nat, time: int)
    requires w.proc.Running? && p < |job.log| && p < |w.proc.r.up.pos| && w.proc.r.up.pos[p] < |job.log[p]|
  {
    var r, c := w.proc.r, NextCheckpoint(job, w.proc.r, p, time).(status := Completed);
    && w'.proc.Running? && Drained(job, w'.proc.r)
    && w'.env.dir == Dir(w.env.dir.files[c.id := Good(c)], Some(c.id), Some(c.id))
    && w'.env.visible == w.env.visible + [job.log[p][r.up.pos[p]]] && w'.env.inflight == w.env.inflight && w'.env.nonce == w.env.nonce
    && w'.env.markers == w.env.markers + {c.id}
    && var r' := w'.proc.r;
       && r'.up.pos == r.up.pos[p := r.up.pos[p] + 1] && r'.up.offsets == c.offsets && r'.up.nonce == r.up.nonce && r'.up.count == r.up.count + 1
       && r'.up.state == c.state && r'.fatal == r.fatal
  }

  /** A staged checkpoint commits and is promoted. */
  lemma Finish(job: Job, h: Hyp, reach: iset<World>, w: World, v: World, p: nat, time: int)
    returns (w': World)
    requires At(job, h, reach, v) && w.proc.Running? && Drained(job, w.proc.r)
    requires p < |job.log| && w.proc.r.up.pos[p] < |job.log[p]|
    requires StagedOne(job, w, v, p, time) && w.env.inflight.None?
    ensures At(job, h, reach, w') && CompletedOne(job, w, w', p, time)
  {
    w' := CommitOne(job, h, reach, v);
    w' := PromoteOne(job, h, reach, w');
    w' := GoWorker(job, h, reach, w', SaveDone);
    var c := NextCheckpoint(job, w.proc.r, p, time).(status := Completed);
    assert w'.env.dir.files == w.env.dir.files[c.id := Good(c)];
  }

  lemma Complete(job: Job, h: Hyp, reach: iset<World>, w: World, p: nat, time: int) returns (w': World)
    requires At(job, h, reach, w) && w.proc.Running? && Drained(job, w.proc.r) && job == Copy(job.log, job.retain)
    requires p < |job.log| && w.proc.r.up.pos[p] < |job.log[p]| && (h.clockAdvances ==> Later(w.env.dir, time))
    requires w.env.inflight.None? && (h.fatalStops ==> !w.proc.r.fatal)
    requires h.rereads ==> Reread(w.proc.r.up.pos, w.proc.r.up.offsets[p := w.proc.r.up.pos[p] + 1])
    ensures At(job, h, reach, w') && CompletedOne(job, w, w', p, time)
  {
    w' := Interval(job, h, reach, w, p, time);
    w' := Finish(job, h, reach, w, w', p, time);
  }

  /** A first run of a job starts. */
  lemma Boot(job: Job, h: Hyp, reach: iset<World>) returns (w: World)
    requires At(job, h, reach, Init()) && job == Copy(job.log, job.retain)
    ensures At(job, h, reach, w) && w.proc.Running? && Drained(job, w.proc.r) && w == World(Init().env.(nonce := 1), w.proc)
    ensures var r := w.proc.r;
            r.up.nonce == 0 && r.up.count == 0 && r.up.offsets == map[] && r.up.state == [] && !r.fatal && r.up.input == []
    ensures forall p :: 0 <= p < |job.log| ==> w.proc.r.up.pos[p] == 0
  {
    w := Init();
    assert LoadAnswers(w.env.dir, None);
    w := GoRecover(job, h, reach, w, Load(None));
    w := GoRecover(job, h, reach, w, Launch);
  }

  /** The job crashes between checkpoints and starts again from its latest, completed checkpoint `c`. */
  lemma Restart(job: Job, h: Hyp, reach: iset<World>, w: World, c: Checkpoint) returns (w': World)
    requires At(job, h, reach, w) && w.proc.Running? && !MidPromotion(w.proc) && w.env.inflight.None?
    requires w.env.dir.latest == Some(c.id) && c.id in w.env.dir.files && w.env.dir.files[c.id] == Good(c) && c.status.Completed?
    ensures At(job, h, reach, w') && w'.proc.Running? && Drained(job, w'.proc.r)
    ensures w' == World(w.env.(nonce := w.env.nonce + 1), Running(Fresh(job, h.carriesOver, Some(c), w.env.nonce, w.env.trace)))
  {
    w' := GoCrash(job, h, reach, w);
    assert Usable(w'.env.dir, false, c.id);
    w' := GoRecover(job, h, reach, w', Load(Some(c)));
    w' := GoRecover(job, h, reach, w', Launch);
  }

  /** A restore point whose positions do not add up to the visible output is not the end of any execution behind it. */
  lemma Mismatch(job: Job, h: Hyp, reach: iset<World>, w: World, c: Checkpoint)
    requires At(job, h, reach, w) && job == Copy(job.log, job.retain) && |job.log| <= 2
    requires w.proc == Restoring(Some(c)) && Resume(c.offsets, 0) + Resume(c.offsets, 1) != |w.env.visible|
    ensures Broken(job, reach)
  {
    forall t | Execution(job, t) && Selects(job, Some(c), t) ensures Outputs(t) != w.env.visible {
      CopyTotals(job.log, job.retain, t);
    }
    assert !ExactlyOnceIn(job, w);
  }

  // ---- The runs ------------------------------------------------------------------------

  /** A commit decided only after recovery probed its marker becomes visible behind recovery's back. */
  lemma WithoutSettled(job: Job, h: Hyp, reach: iset<World>)
    requires !h.settled && At(job, h, reach, Init()) && job == Copy([[A]], 1)
    ensures Broken(job, reach)
  {
    var w := Boot(job, h, reach);
    var c := NextCheckpoint(job, w.proc.r, 0, 1);
    w := Interval(job, h, reach, w, 0, 1);
    w := GoWorker(job, h, reach, w, Commit);
    w := GoCrash(job, h, reach, w);
    UnsettledEnd(job, h, reach, w, c);
  }

  lemma UnsettledEnd(job: Job, h: Hyp, reach: iset<World>, w: World, c: Checkpoint)
    requires !h.settled && At(job, h, reach, w) && w.proc.Down? && c.status.Prepared?
    requires w.env.dir == Dir(map[c.id := Good(c)], Some(c.id), None) && w.env.markers == {} && w.env.visible == []
    requires w.env.inflight.Some? && w.env.inflight.value.outs == [A]
    ensures Broken(job, reach)
  {
    assert Usable(w.env.dir, false, c.id);
    var w' := GoRecover(job, h, reach, w, Load(Some(c)));
    w' := GoProbe(job, h, reach, w');
    w' := GoRecover(job, h, reach, w', Decide(true));
    assert CompletedAnswers(w'.env.dir, None);
    w' := GoFallBack(job, h, reach, w', None);
    assert w'.env.visible == [A] && Outputs([]) == [];
    assert !ExactlyOnceIn(job, w');
  }

  /** A checkpoint stamped earlier than a stored one is deleted by the retention pass that follows its own promotion. */
  lemma WithoutClock(job: Job, h: Hyp, reach: iset<World>)
    requires !h.clockAdvances && At(job, h, reach, Init()) && job == Copy([[A, B]], 1)
    ensures Broken(job, reach)
  {
    var w := Boot(job, h, reach);
    var c1 := NextCheckpoint(job, w.proc.r, 0, 10).(status := Completed);
    w := Complete(job, h, reach, w, 0, 10);
    assert w.env.dir.files == map[c1.id := Good(c1)];
    SecondClock(job, h, reach, w, c1);
  }

  lemma SecondClock(job: Job, h: Hyp, reach: iset<World>, w: World, c1: Checkpoint)
    requires !h.clockAdvances && At(job, h, reach, w) && job == Copy([[A, B]], 1) && w.proc.Running? && Drained(job, w.proc.r)
    requires w.env.dir.files == map[c1.id := Good(c1)] && w.env.inflight.None? && !w.proc.r.fatal && |w.env.visible| == 1
    requires w.proc.r.up.pos == [1] && w.proc.r.up.offsets == map[0 := 1] == c1.offsets && c1.time == 10 && c1.status.Completed?
    requires c1.id == Id(w.proc.r.up.nonce, w.proc.r.up.count, Periodic)
    ensures Broken(job, reach)
  {
    var c2 := NextCheckpoint(job, w.proc.r, 0, 5).(status := Completed);
    var w' := Interval(job, h, reach, w, 0, 5);
    w' := CommitOne(job, h, reach, w');
    w' := PromoteOne(job, h, reach, w');
    assert w'.env.dir.files == map[c1.id := Good(c1), c2.id := Good(c2)];
    ClockEnd(job, h, reach, w', c1, c2);
  }

  lemma ClockEnd(job: Job, h: Hyp, reach: iset<World>, w: World, c1: Checkpoint, c2: Checkpoint)
    requires At(job, h, reach, w) && job == Copy(job.log, 1) && |job.log| == 1
    requires w.proc.Running? && w.proc.r.fin.Promoting? && w.proc.r.fin.stage.ToRetain?
    requires c1.id != c2.id && c1.status.Completed? && c2.status.Completed? && c1.time > c2.time
    requires w.env.dir.files == map[c1.id := Good(c1), c2.id := Good(c2)] && w.env.dir.latest == Some(c2.id)
    requires |w.env.visible| == 2 && c1.offsets == map[0 := 1]
    ensures Broken(job, reach)
  {
    OlderGoes(w.env.dir, c1, c2);
    var w' := GoWorker(job, h, reach, w, EvictOne(c2.id));
    w' := GoCrash(job, h, reach, w');
    OlderGone(w'.env.dir, c1, c2);
    w' := GoRecover(job, h, reach, w', Load(Some(c1)));
    Mismatch(job, h, reach, w', c1);
  }

  /** Of two done checkpoints, one of them retained, the one with the older timestamp goes. */
  lemma OlderGoes(d: Dir, c1: Checkpoint, c2: Checkpoint)
    requires c1.id != c2.id && c1.Done() && c2.Done() && c1.time > c2.time && d.files == map[c1.id := Good(c1), c2.id := Good(c2)]
    ensures Evictable(d, 1, c2.id)
  {
    assert Rivals(d, c2) == {c1.id};
    assert Usable(d, true, c2.id);
  }

  lemma OlderGone(d: Dir, c1: Checkpoint, c2: Checkpoint)
    requires c1.id != c2.id && d.latest == Some(c2.id) && d.files == map[c1.id := Good(c1), c2.id := Good(c2)] - {c2.id}
    ensures LoadAnswers(d, Some(c1))
  {
    assert d.files == map[c1.id := Good(c1)];
    assert Newest(d, false, c1);
  }

  /**
    A crash after a promotion rewrote its file but before it rewrote the completed pointer: a
    later uncommitted checkpoint then falls back behind output that is already visible.
   */
  lemma WithoutCurrent(job: Job, h: Hyp, reach: iset<World>)
    requires !Fixed(h) && At(job, h, reach, Init()) && job == Copy([[A, B, A]], 3)
    ensures Broken(job, reach)
  {
    var w := Boot(job, h, reach);
    var c1 := NextCheckpoint(job, w.proc.r, 0, 1).(status := Completed);
    w := Complete(job, h, reach, w, 0, 1);
    assert w.env.dir.files == map[c1.id := Good(c1)];
    SecondTorn(job, h, reach, w, c1);
  }

  lemma SecondTorn(job: Job, h: Hyp, reach: iset<World>, w: World, c1: Checkpoint)
    requires !Fixed(h) && At(job, h, reach, w) && job == Copy([[A, B, A]], 3) && w.proc.Running? && Drained(job, w.proc.r)
    requires w.env.dir == Dir(map[c1.id := Good(c1)], Some(c1.id), Some(c1.id)) && w.env.inflight.None? && !w.proc.r.fatal
    requires |w.env.visible| == 1 && w.env.nonce == 1 && w.env.markers == {c1.id}
    requires w.proc.r.up.pos == [1] && w.proc.r.up.offsets == map[0 := 1] == c1.offsets && c1.time == 1 && c1.status.Completed?
    requires c1.id == Id(0, 1, Periodic) && w.proc.r.up.nonce == 0 && w.proc.r.up.count == 1
    ensures Broken(job, reach)
  {
    var c2 := NextCheckpoint(job, w.proc.r, 0, 2).(status := Completed);
    var w' := Interval(job, h, reach, w, 0, 2);
    w' := TornPromotion(job, h, reach, w');
    assert w'.env.dir.files == map[c1.id := Good(c1), c2.id := Good(c2)];
    TornRestart(job, h, reach, w', c1, c2);
  }

  lemma TornRestart(job: Job, h: Hyp, reach: iset<World>, w: World, c1: Checkpoint, c2: Checkpoint)
    requires !Fixed(h) && At(job, h, reach, w) && job == Copy([[A, B, A]], 3) && w.proc.Down? && w.env.nonce == 1
    requires c1.id != c2.id && c1.status.Completed? && c2.status.Completed? && c1.time == 1 && c2.time == 2
    requires c1.id.nonce == 0 && c2.id.nonce == 0 && w.env.inflight.None? && |w.env.visible| == 2
    requires w.env.dir == Dir(map[c1.id := Good(c1), c2.id := Good(c2)], Some(c2.id), Some(c1.id))
    requires c1.offsets == map[0 := 1] && c2.offsets == map[0 := 2] && w.env.markers == {c1.id, c2.id}
    ensures Broken(job, reach)
  {
    assert Usable(w.env.dir, false, c2.id);
    var w' := GoRecover(job, h, reach, w, Load(Some(c2)));
    w' := GoRecover(job, h, reach, w', Launch);
    PromoteEnd(job, h, reach, w', c1, c2);
  }

  lemma TornPromotion(job: Job, h: Hyp, reach: iset<World>, w: World) returns (w': World)
    requires !Fixed(h) && At(job, h, reach, w) && w.proc.Running? && w.env.inflight.None?
    requires var r := w.proc.r;
             r.fin.Ready? && r.fin.c.id in r.up.at && r.up.at[r.fin.c.id] < |r.up.cuts| && r.waiting == Some(r.fin.c.id) && !r.produceErr
    ensures At(job, h, reach, w')
    ensures var r := w.proc.r; var c := r.fin.c.(status := Completed);
            w' == World(w.env.(visible := w.env.visible + r.txn, markers := w.env.markers + {c.id}, trace := r.up.cuts[r.up.at[c.id]],
                               dir := w.env.dir.(files := w.env.dir.files[c.id := Good(c)])), Down)
  {
    w' := CommitOne(job, h, reach, w);
    w' := GoWorker(job, h, reach, w', Write);
    w' := GoCrash(job, h, reach, w');
  }

  lemma PromoteEnd(job: Job, h: Hyp, reach: iset<World>, w: World, c1: Checkpoint, c2: Checkpoint)
    requires !Fixed(h) && At(job, h, reach, w) && job == Copy([[A, B, A]], 3) && w.proc.Running? && Drained(job, w.proc.r)
    requires c1.id != c2.id && c1.status.Completed? && c1.time == 1 && c2.time == 2
    requires c1.id.nonce == 0 && c2.id.nonce == 0 && w.env.inflight.None? && |w.env.visible| == 2
    requires w.env.dir == Dir(map[c1.id := Good(c1), c2.id := Good(c2)], Some(c2.id), Some(c1.id))
    requires c1.offsets == map[0 := 1] && w.env.markers == {c1.id, c2.id}
    requires w.proc.r.up.nonce == 1 && w.proc.r.up.pos[0] == 2 && !w.proc.r.fatal
    ensures Broken(job, reach)
  {
    var c3 := NextCheckpoint(job, w.proc.r, 0, 3);
    var w' := Interval(job, h, reach, w, 0, 3);
    FallBackEnd(job, h, reach, w', c1, c3);
  }

  /** A run with an uncommitted checkpoint `c` crashes and recovery falls back to `c1`. */
  lemma FallBackEnd(job: Job, h: Hyp, reach: iset<World>, w: World, c1: Checkpoint, c: Checkpoint)
    requires !Fixed(h) && At(job, h, reach, w) && job == Copy(job.log, 3) && |job.log| == 1 && w.proc.Running? && !MidPromotion(w.proc)
    requires w.env.dir.latest == Some(c.id) && c.id in w.env.dir.files && w.env.dir.files[c.id] == Good(c) && c.status.Prepared?
    requires w.env.dir.completed == Some(c1.id) && c1.id in w.env.dir.files && w.env.dir.files[c1.id] == Good(c1) && c1.status.Completed?
    requires c.id !in w.env.markers && w.env.inflight.None? && |w.env.visible| == 2 && c1.offsets == map[0 := 1]
    ensures Broken(job, reach)
  {
    var w' := GoCrash(job, h, reach, w);
    assert Usable(w'.env.dir, false, c.id);
    w' := GoRecover(job, h, reach, w', Load(Some(c)));
    w' := GoProbe(job, h, reach, w');
    assert Usable(w'.env.dir, true, c1.id);
    w' := GoFallBack(job, h, reach, w', Some(c1));
    Mismatch(job, h, reach, w', c1);
  }

  /** A partition without new records since a restart is missing from the next checkpoint and is read again. */
  lemma WithoutRereads(job: Job, h: Hyp, reach: iset<World>)
    requires !Covers(h) && At(job, h, reach, Init()) && job == Copy([[A, B], [A]], 3)
    ensures Broken(job, reach)
  {
    var w := Boot(job, h, reach);
    w := Complete(job, h, reach, w, 0, 1);
    var c2 := NextCheckpoint(job, w.proc.r, 1, 2).(status := Completed);
    w := Complete(job, h, reach, w, 1, 2);
    assert c2.offsets == map[0 := 1, 1 := 1];
    w := Restart(job, h, reach, w, c2);
    assert w.proc.r.up.pos[0] == 1 && |w.env.visible| == 2;
    CarryEnd(job, h, reach, w);
  }

  lemma CarryEnd(job: Job, h: Hyp, reach: iset<World>, w: World)
    requires !Covers(h) && At(job, h, reach, w) && job == Copy([[A, B], [A]], 3) && w.proc.Running? && Drained(job, w.proc.r)
    requires !w.proc.r.fatal && w.proc.r.up.offsets == map[] && w.proc.r.up.pos[0] == 1 && w.env.inflight.None? && |w.env.visible| == 2
    requires Later(w.env.dir, 3)
    ensures Broken(job, reach)
  {
    var c3 := NextCheckpoint(job, w.proc.r, 0, 3).(status := Completed);
    var w' := Complete(job, h, reach, w, 0, 3);
    w' := GoCrash(job, h, reach, w');
    assert Usable(w'.env.dir, false, c3.id);
    w' := GoRecover(job, h, reach, w', Load(Some(c3)));
    assert c3.offsets == map[0 := 2];
    Mismatch(job, h, reach, w', c3);
  }

  /** A worker that goes on after an abort commits later records over the aborted ones. */
  lemma WithoutFatalStops(job: Job, h: Hyp, reach: iset<World>)
    requires !h.fatalStops && At(job, h, reach, Init()) && job == Copy([[A, B]], 1)
    ensures Broken(job, reach)
  {
    var w := Boot(job, h, reach);
    w := ReadToSink(job, h, reach, w, 0, false);
    w := AbortOne(job, h, reach, w, Id(0, 1, Periodic));
    AbortEnd(job, h, reach, w);
  }

  /** The worker takes an event whose flush failed, aborts its transaction and releases the sink. */
  lemma AbortOne(job: Job, h: Hyp, reach: iset<World>, w: World, id: Id) returns (w': World)
    requires At(job, h, reach, w) && w.proc.Running? && (h.fatalStops ==> !w.proc.r.fatal)
    requires var r := w.proc.r;
             r.events == [id] && r.fin.Idle? && id in r.pending && r.pending[id].err && r.waiting == Some(id)
    ensures At(job, h, reach, w')
    ensures var r := w.proc.r;
            w' == w.(proc := Running(r.(events := [], pending := r.pending - {id}, txn := [], produceErr := false, waiting := None, fatal := true)))
  {
    w' := GoTake(job, h, reach, w, 1);
    w' := GoWorker(job, h, reach, w', AbortOk);
    assert w'.proc.r.events == [];
  }

  lemma AbortEnd(job: Job, h: Hyp, reach: iset<World>, w: World)
    requires !h.fatalStops && At(job, h, reach, w) && job == Copy([[A, B]], 1) && w.proc.Running? && Drained(job, w.proc.r)
    requires w.env.visible == [] && w.env.inflight.None? && Later(w.env.dir, 1)
    requires w.proc.r.up.pos == [1] && w.proc.r.up.offsets == map[0 := 1]
    ensures Broken(job, reach)
  {
    var w' := Interval(job, h, reach, w, 0, 1);
    w' := CommitOne(job, h, reach, w');
    assert w'.env.visible == [B];
    forall t | Execution(job, t) ensures Outputs(t) != [B] {
      CopiesFirst(job, t);
    }
    assert !ExactlyOnceIn(job, w');
  }

  /** Every execution of a one-partition copy job starts its output with the first record. */
  lemma {:induction false} CopiesFirst(job: Job, t: Trace)
    requires job == Copy([[A, B]], 1) && Execution(job, t)
    ensures if t == [] then Outputs(t) == [] else Outputs(t) != [] && Outputs(t)[0] == A
  {
    if t != [] {
      CopiesFirst(job, t[..|t| - 1]);
      assert Outputs(t) == Outputs(t[..|t| - 1]) + t[|t| - 1].outs;
    }
  }

  // The run that overflows the snapshot buffer.

  /** One more barrier goes through the operators; `stale` is the snapshot it evicts if the buffer is full. */
  lemma BarrierOne(job: Job, h: Hyp, reach: iset<World>, w: World, stale: Id) returns (w': World)
    requires At(job, h, reach, w) && w.proc.Running?
    requires var u := w.proc.r.up;
             && |u.done| == |u.input| && |u.cuts| == |u.done| + 1 && Reread(u.pos, u.offsets)
             && (|u.snaps| > MAX_SNAPSHOTS ==> !h.snapshotsFit && stale in u.snaps && Id(u.nonce, u.count + 1, Periodic) !in u.snaps)
    ensures At(job, h, reach, w')
    ensures var r := w.proc.r; var u := r.up; var id := Id(u.nonce, u.count + 1, Periodic);
            w' == w.(proc := Running(r.(
              up := u.(count := u.count + 1, input := u.input + [Bar(id)], seen := u.seen + [u.pos], at := u.at[id := |u.input|],
                       done := u.done + [Result(u.state, [])], cuts := u.cuts + [Last(u.cuts)],
                       snaps := if |u.snaps| <= MAX_SNAPSHOTS then u.snaps[id := u.state] else (u.snaps - {stale})[id := u.state]),
              pending := r.pending[id := PendingOf(r.pending, id).(offsets := Some(u.offsets))])))
  {
    w' := GoFlow(job, h, reach, w, Inject(Periodic));
    w' := GoFlow(job, h, reach, w', OnBarrier(stale));
  }

  lemma FloodOne(job: Job, h: Hyp, reach: iset<World>, w: World) returns (w': World)
    requires At(job, h, reach, w) && w.proc.Running?
    requires var r := w.proc.r;
             && |r.up.done| == |r.up.input| && |r.up.cuts| == |r.up.done| + 1 && |r.up.snaps| <= MAX_SNAPSHOTS
             && Reread(r.up.pos, r.up.offsets) && forall i :: i in r.up.snaps ==> i.number <= r.up.count
    ensures At(job, h, reach, w') && Flooded(w, w', false)
    ensures w'.proc.r.up.snaps == w.proc.r.up.snaps[Id(w.proc.r.up.nonce, w.proc.r.up.count + 1, Periodic) := w.proc.r.up.state]
    ensures |w'.proc.r.up.snaps| == |w.proc.r.up.snaps| + 1
  {
    w' := BarrierOne(job, h, reach, w, Id(0, 0, Periodic));
    var u := w.proc.r.up;
    var id := Id(u.nonce, u.count + 1, Periodic);
    assert id !in u.snaps;
    assert w'.proc.r.up.snaps == u.snaps[id := u.state];
    assert w'.proc.r.up.snaps.Keys == u.snaps.Keys + {id};
  }

  /** What a further barrier leaves alone. */
  ghost predicate Flooded(w: World, w': World, evicted: bool) {
    && w.proc.Running? && w'.proc.Running? && w' == w.(proc := w'.proc)
    && var r, r' := w.proc.r, w'.proc.r;
       && r'.up.count > r.up.count && r'.up.pos == r.up.pos && r'.up.offsets == r.up.offsets
       && (!evicted ==> r.up.snaps.Keys <= r'.up.snaps.Keys)
       && (forall i :: i in r.pending ==> i in r'.pending && (i.number <= r.up.count ==> r'.pending[i] == r.pending[i]))
       && (forall i :: i in r.up.at ==> i in r'.up.at && (i.number <= r.up.count ==> r'.up.at[i] == r.up.at[i]))
       && |r'.up.done| == |r'.up.input| && |r'.up.cuts| == |r'.up.done| + 1 && r.up.input <= r'.up.input && r.up.done <= r'.up.done && r.up.cuts <= r'.up.cuts
       && r'.up.state == r.up.state && r'.up.nonce == r.up.nonce && r'.up.tapped == r.up.tapped && r'.sunk == r.sunk && r'.txn == r.txn
       && r'.waiting == r.waiting && r'.events == r.events && r'.fin == r.fin && r'.fatal == r.fatal && r'.produceErr == r.produceErr
  }

  lemma {:induction false} Flood(job: Job, h: Hyp, reach: iset<World>, w: World, n: nat) returns (w': World)
    requires At(job, h, reach, w) && w.proc.Running?
    requires var r := w.proc.r;
             && |r.up.done| == |r.up.input| && |r.up.cuts| == |r.up.done| + 1 && |r.up.snaps| + n == MAX_SNAPSHOTS
             && Reread(r.up.pos, r.up.offsets) && forall i :: i in r.up.snaps ==> i.number <= r.up.count
    ensures At(job, h, reach, w') && Flooded(w, w', false) && |w'.proc.r.up.snaps| == MAX_SNAPSHOTS + 1
    ensures forall i :: i in w'.proc.r.up.snaps ==> i.number <= w'.proc.r.up.count
    decreases n
  {
    w' := FloodOne(job, h, reach, w);
    if n > 0 {
      w' := Flood(job, h, reach, w', n - 1);
    }
  }

  /** A barrier that finds the buffer full evicts another checkpoint's snapshot. */
  lemma Overflow(job: Job, h: Hyp, reach: iset<World>, w: World, id: Id) returns (w': World)
    requires !h.snapshotsFit && At(job, h, reach, w) && w.proc.Running?
    requires var r := w.proc.r;
             && |r.up.done| == |r.up.input| && |r.up.cuts| == |r.up.done| + 1 && |r.up.snaps| > MAX_SNAPSHOTS && id in r.up.snaps
             && Reread(r.up.pos, r.up.offsets) && forall i :: i in r.up.snaps ==> i.number <= r.up.count
    ensures At(job, h, reach, w') && Flooded(w, w', true) && id !in w'.proc.r.up.snaps
  {
    w' := BarrierOne(job, h, reach, w, id);
  }

  /** The sink has not reached the barrier `id` of the first record when the operators are past the second. */
  ghost predicate TapBehind(job: Job, w: World, id: Id) {
    && job == Copy([[A, B]], 1) && w.proc.Running?
    && w.env.dir == Dir(map[], None, None) && w.env.inflight.None?
    && var r := w.proc.r;
       && Reread(r.up.pos, r.up.offsets) && r.up.state == A + B && id in r.pending && r.pending[id] == Pending(Some(map[0 := 1]), None, false)
       && |r.up.done| == |r.up.input| >= 3 && |r.up.cuts| == |r.up.done| + 1 && r.up.input[0].Item? && r.up.input[1] == Bar(id)
       && r.up.tapped == 0 && r.sunk == 0 && r.waiting.None? && r.events == [] && r.fin.Idle? && !r.fatal && !r.produceErr
       && id in r.up.at && r.up.at[id] == 1 && id.number <= r.up.count
  }

  /** A tap that finds its snapshot evicted stores the live state, which is ahead of the barrier's positions. */
  lemma WithoutSnapshotsFit(job: Job, h: Hyp, reach: iset<World>)
    requires !h.snapshotsFit && At(job, h, reach, Init()) && job == Copy([[A, B]], 1)
    ensures Broken(job, reach)
  {
    var w := Boot(job, h, reach);
    var id := Id(0, 1, Periodic);
    w := FirstRecord(job, h, reach, w);
    w := SecondRecord(job, h, reach, w, id);
    w := Flood(job, h, reach, w, 7);
    assert id in w.proc.r.up.snaps;
    w := Overflow(job, h, reach, w, id);
    SnapshotsEnd(job, h, reach, w, id);
  }

  /** The first record and its barrier are through the operators, and the tap stands still. */
  ghost predicate SnapshotWaits(w: World, id: Id) {
    && w.proc.Running? && w.env.dir == Dir(map[], None, None) && w.env.inflight.None?
    && var r := w.proc.r; var u := r.up;
       && u.pos == [1] && u.offsets == map[0 := 1] && u.state == A && u.snaps == map[id := A] && u.count == 1
       && |u.done| == |u.input| == 2 && |u.cuts| == 3 && u.input[0].Item? && u.input[1] == Bar(id)
       && u.tapped == 0 && id in u.at && u.at[id] == 1 && id.number <= 1
       && r.pending == map[id := Pending(Some(map[0 := 1]), None, false)]
       && r.sunk == 0 && r.waiting.None? && r.events == [] && r.fin.Idle? && !r.fatal && !r.produceErr
  }

  lemma FirstRecord(job: Job, h: Hyp, reach: iset<World>, w: World) returns (w': World)
    requires At(job, h, reach, w) && job == Copy([[A, B]], 1) && w.proc.Running? && Drained(job, w.proc.r)
    requires var u := w.proc.r.up;
             u.nonce == 0 && u.count == 0 && u.offsets == map[] && u.state == [] && !w.proc.r.fatal && u.input == [] && u.pos[0] == 0
    requires w.env.dir == Dir(map[], None, None) && w.env.inflight.None?
    ensures At(job, h, reach, w') && SnapshotWaits(w', Id(0, 1, Periodic))
  {
    w' := ReadOne(job, h, reach, w, 0);
    w' := OperateOne(job, h, reach, w', Src(0, 0), Id(0, 1, Periodic));
    assert w'.proc.r.up.state == A && w'.proc.r.up.pos == [1];
  }

  lemma SecondRecord(job: Job, h: Hyp, reach: iset<World>, w: World, id: Id) returns (w': World)
    requires At(job, h, reach, w) && job == Copy([[A, B]], 1) && SnapshotWaits(w, id)
    ensures At(job, h, reach, w') && TapBehind(job, w', id) && w'.proc.r.up.snaps == map[id := A] && w'.proc.r.up.count == 1
  {
    w' := GoFlow(job, h, reach, w, Read(0));
    w' := GoFlow(job, h, reach, w', OnRecord(A + B, [B]));
  }

  lemma SnapshotsEnd(job: Job, h: Hyp, reach: iset<World>, w: World, id: Id)
    requires At(job, h, reach, w) && TapBehind(job, w, id) && id !in w.proc.r.up.snaps
    ensures Broken(job, reach)
  {
    var w' := SinkOne(job, h, reach, w, id, true);
    w' := TakeOne(job, h, reach, w', id, 1);
    w' := SaveOne(job, h, reach, w');
    w' := CommitOne(job, h, reach, w');
    w' := PromoteOne(job, h, reach, w');
    w' := GoCrash(job, h, reach, w');
    LiveStateEnd(job, h, reach, w', Checkpoint(id, 1, Completed, map[0 := 1], A + B));
  }

  lemma OneRead(job: Job, t: Trace)
    requires job == Copy([[A, B]], 1) && Execution(job, t) && |t| == 1
    ensures StateAfter(job, t) == A
  {
    assert t[..0] == [];
    assert Follows(job, [], t[0]);
    assert [] + A == A;
  }

  lemma LiveStateEnd(job: Job, h: Hyp, reach: iset<World>, w: World, c: Checkpoint)
    requires At(job, h, reach, w) && job == Copy([[A, B]], 1) && w.proc.Down?
    requires w.env.dir.latest == Some(c.id) && c.id in w.env.dir.files && w.env.dir.files[c.id] == Good(c) && c.status.Completed?
    requires c.offsets == map[0 := 1] && c.state == A + B
    ensures Broken(job, reach)
  {
    assert Usable(w.env.dir, false, c.id);
    var w' := GoRecover(job, h, reach, w, Load(Some(c)));
    forall t | Execution(job, t) ensures !Selects(job, Some(c), t) {
      CopyTotals(job.log, job.retain, t);
      if |t| == 1 {
        OneRead(job, t);
      }
    }
    assert !ExactlyOnceIn(job, w');
  }

  // ---- The guarantee and its conditions ----------------------------------------------------

  /** The worlds of the runs of `job`. */
  ghost function Reachable(job: Job, h: Hyp): iset<World> {
    iset w | Reached(job, h, w)
  }

  ghost predicate Reached(job: Job, h: Hyp, w: World) {
    exists ls :: Exec(job, h, Init(), ls) == Some(w)
  }

  lemma ReachableClosed(job: Job, h: Hyp)
    ensures At(job, h, Reachable(job, h), Init())
  {
    assert Exec(job, h, Init(), []) == Some(Init());
    forall w, l | Reached(job, h, w) && Step(job, h, w, l).Some? ensures Reached(job, h, Step(job, h, w, l).value) {
      var ls :| Exec(job, h, Init(), ls) == Some(w);
      assert (ls + [l])[..|ls|] == ls;
      assert Exec(job, h, Init(), ls + [l]) == Step(job, h, w, l);
    }
  }

  lemma Refute(job: Job, h: Hyp)
    requires Broken(job, Reachable(job, h))
    ensures !AlwaysExactlyOnce(h)
  {
    var w :| w in Reachable(job, h) && !ExactlyOnceIn(job, w);
    var ls :| Exec(job, h, Init(), ls) == Some(w);
  }

  /** Any condition that is dropped has a job and a run that break the guarantee. */
  lemma EachNeeded(h: Hyp) returns (job: Job)
    requires !AllHold(h)
    ensures Broken(job, Reachable(job, h))
  {
    job := if !Fixed(h) then Copy([[A, B, A]], 3) else if !Covers(h) then Copy([[A, B], [A]], 3)
           else if !h.settled then Copy([[A]], 1) else Copy([[A, B]], 1);
    ReachableClosed(job, h);
    var reach := Reachable(job, h);
    if !Fixed(h) {
      WithoutCurrent(job, h, reach);
    } else if !Covers(h) {
      WithoutRereads(job, h, reach);
    } else if !h.settled {
      WithoutSettled(job, h, reach);
    } else if !h.fatalStops {
      WithoutFatalStops(job, h, reach);
    } else if !h.clockAdvances {
      WithoutClock(job, h, reach);
    } else {
      WithoutSnapshotsFit(job, h, reach);
    }
  }

  /**
    The central guarantee and its exact conditions: every run of every job is exactly-once if and
    only if the runs meet the four conditions of `Base`, barriers that find every partition read
    again (or a seeded offset map), and fallbacks that find a current pointer (or an atomic
    promotion).
   */
  lemma ExactlyOnceIff(h: Hyp)
    ensures AlwaysExactlyOnce(h) <==> AllHold(h)
  {
    if AllHold(h) {
      ExactlyOnceTheorem.ExactlyOnceHolds(h);
    } else {
      var job := EachNeeded(h);
      Refute(job, h);
    }
  }
}
