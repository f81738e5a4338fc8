/** Preservation of the invariant ahead of the finalize worker. */
module ExactlyOnceSteps {
  import opened Prelude
  import opened CheckpointFiles
  import opened ExactlyOnce
  import opened ExactlyOnceInvariant

  // ---- What a step ahead of the sink leaves alone --------------------------------------

  /** The streams only grow. */
  ghost predicate Grows(u: Upstream, u': Upstream) {
    && u'.nonce == u.nonce && u.cuts <= u'.cuts && u.seen <= u'.seen && u.done <= u'.done && u.input <= u'.input
    && u.tapped <= u'.tapped
    && forall id :: id in u.at ==> id in u'.at && u'.at[id] == u.at[id]
  }

  /** Barriers the sink has passed stay registered as they are. */
  ghost predicate Passes(r: Run, r': Run) {
    && r' == r.(up := r'.up, pending := r'.pending) && Grows(r.up, r'.up)
    && forall id :: id in r.up.at && r.up.at[id] < r.sunk && id in r.pending ==> id in r'.pending && r'.pending[id] == r.pending[id]
  }

  lemma GrowsNamed(e: Env, r: Run, r': Run)
    requires Named(e, r) && Passes(r, r')
    ensures Named(e, r')
  {
  }

  lemma GrowsFinalizing(job: Job, h: Hyp, e: Env, r: Run, r': Run)
    requires Finalizing(job, h, e, r) && Passes(r, r')
    ensures Finalizing(job, h, e, r')
  {
  }

  lemma GrowsStaged(e: Env, r: Run, r': Run)
    requires Shape(r.up) && Shape(r'.up) && r.sunk <= r.up.tapped && Staged(e, r) && Passes(r, r')
    ensures Staged(e, r')
  {
  }

  lemma GrowsWaits(job: Job, h: Hyp, r: Run, r': Run, id: Id)
    requires Shape(r.up) && Shape(r'.up) && Waits(job, h, r, id) && Passes(r, r')
    ensures Waits(job, h, r', id)
  {
    if !Between(r.fin) && !r.fin.Aborting? {
      assert CheckpointOf(job, h, r'.up, r.fin.c);
    }
  }

  lemma GrowsHandshake(job: Job, h: Hyp, r: Run, r': Run)
    requires Shape(r.up) && Shape(r'.up) && Handshake(job, h, r) && Passes(r, r')
    ensures Handshake(job, h, r')
  {
    if !r.fatal && r.waiting.Some? {
      GrowsWaits(job, h, r, r', r.waiting.value);
    }
  }

  /** Checkpoints a step does not touch stay registered. */
  lemma GrowsRegistered(job: Job, h: Hyp, r: Run, r': Run, touched: set<Id>)
    requires Shape(r.up) && Shape(r'.up) && Registered(job, h, r) && Passes(r, r')
    requires forall id :: id in r'.up.at && id !in r.up.at ==> id in touched
    requires forall id :: id in touched && id in r'.up.at ==> EntryOk(job, h, r'.up, r'.pending, id)
    requires forall id :: id in r.up.at && id !in touched && id in r.pending ==> id in r'.pending && r'.pending[id] == r.pending[id]
    requires forall id :: id in r.up.at && id !in touched && r.up.at[id] < r'.up.tapped ==> r.up.at[id] < r.up.tapped
    ensures Registered(job, h, r')
  {
    forall id | Open(r', id) ensures EntryOk(job, h, r'.up, r'.pending, id) {
      if id !in touched {
        assert Open(r, id);
        assert EntryOk(job, h, r.up, r.pending, id);
      }
    }
  }

  /** What a run says of its streams alone. */
  lemma UpOf(job: Job, h: Hyp, e: Env, r: Run)
    requires RunOk(job, h, e, r)
    ensures UpOk(job, h, r.up) && r.sunk <= r.up.tapped && Registered(job, h, r)
  {
    assert UnfoldRun(r);
  }

  lemma FlowKeeps(job: Job, h: Hyp, e: Env, r: Run, r': Run)
    requires RunOk(job, h, e, r) && Passes(r, r') && UpOk(job, h, r'.up) && Registered(job, h, r')
    ensures RunOk(job, h, e, r')
  {
    assert UnfoldRun(r);
    FlowRest(job, h, e, r, r');
    assert RunFacts(job, h, e, r');
  }

  lemma FlowRest(job: Job, h: Hyp, e: Env, r: Run, r': Run)
    requires Shape(r.up) && Shape(r'.up) && r.sunk <= r.up.tapped && Passes(r, r')
    requires Staged(e, r) && Handshake(job, h, r) && Named(e, r) && (!r.fatal ==> Finalizing(job, h, e, r))
    ensures Staged(e, r') && Handshake(job, h, r') && Named(e, r') && (!r'.fatal ==> Finalizing(job, h, e, r'))
  {
    GrowsStaged(e, r, r');
    GrowsHandshake(job, h, r, r');
    GrowsNamed(e, r, r');
    if !r.fatal {
      GrowsFinalizing(job, h, e, r, r');
    }
  }

  // ---- Reading -------------------------------------------------------------------------

  lemma ReadShape(u: Upstream, x: In, pos: seq<nat>, u': Upstream)
    requires Shape(u) && x.Item? && u' == u.(input := u.input + [x], seen := u.seen + [pos], pos := u'.pos, offsets := u'.offsets)
    ensures Shape(u') && Grows(u, u')
  {
  }

  lemma ReadInjected(job: Job, h: Hyp, u: Upstream, p: nat, u': Upstream)
    requires Shape(u) && Shape(u') && Injected(job, h, u) && p < |u.pos| && u.pos[p] < |job.log[p]|
    requires var pos := u.pos[p := u.pos[p] + 1];
             u' == u.(input := u.input + [Item(Src(p, u.pos[p]))], seen := u.seen + [pos], offsets := u.offsets[p := u.pos[p] + 1], pos := pos)
    ensures Injected(job, h, u')
  {
    ReadPartial(u.pos, u.offsets, p);
    var n := |u.input|;
    forall i | 0 <= i < |u'.input| && u'.input[i].Item? ensures SrcOk(job, u'.input[i].src, u'.seen[i]) {
      assert u'.seen[i] == u.seen[i] && (i < n ==> u'.input[i] == u.input[i]);
    }
    forall i | 0 <= i < |u'.input| ensures u'.seen[i + 1] == Advance(u'.seen[i], u'.input[i]) {
      assert u'.seen[i] == u.seen[i] && (i < n ==> u'.input[i] == u.input[i] && u'.seen[i + 1] == u.seen[i + 1]);
    }
  }

  lemma ReadPartial(pos: seq<nat>, offsets: map<nat, nat>, p: nat)
    requires Partial(pos, offsets) && p < |pos|
    ensures Partial(pos[p := pos[p] + 1], offsets[p := pos[p] + 1])
    ensures Reread(pos, offsets) ==> Reread(pos[p := pos[p] + 1], offsets[p := pos[p] + 1])
  {
  }

  lemma ReadRest(job: Job, u: Upstream, u': Upstream)
    requires Shape(u) && Shape(u') && Linked(u) && Executed(job, u) && Snapshots(job, u) && Grows(u, u')
    requires u' == u.(input := u'.input, seen := u'.seen, pos := u'.pos, offsets := u'.offsets)
    ensures Linked(u') && Executed(job, u') && Snapshots(job, u')
  {
  }

  lemma ReadUp(job: Job, h: Hyp, u: Upstream, p: nat, u': Upstream)
    requires UpOk(job, h, u) && p < |u.pos| && u.pos[p] < |job.log[p]|
    requires var pos := u.pos[p := u.pos[p] + 1];
             u' == u.(input := u.input + [Item(Src(p, u.pos[p]))], seen := u.seen + [pos], offsets := u.offsets[p := u.pos[p] + 1], pos := pos)
    ensures UpOk(job, h, u') && Grows(u, u')
  {
    ReadShape(u, Item(Src(p, u.pos[p])), u'.pos, u');
    ReadInjected(job, h, u, p, u');
    ReadRest(job, u, u');
  }

  /** Nothing but the streams changes. */
  lemma StreamsKeep(job: Job, h: Hyp, e: Env, r: Run, r': Run)
    requires RunOk(job, h, e, r) && r' == r.(up := r'.up) && UpOk(job, h, r'.up) && Grows(r.up, r'.up)
    requires r'.up.at == r.up.at && r'.up.tapped == r.up.tapped
    ensures RunOk(job, h, e, r')
  {
    UpOf(job, h, e, r);
    GrowsRegistered(job, h, r, r', {});
    FlowKeeps(job, h, e, r, r');
  }

  lemma ReadKeeps(job: Job, h: Hyp, e: Env, r: Run, p: nat, u': Upstream)
    requires RunOk(job, h, e, r) && p < |r.up.pos| && p < |job.log| && r.up.pos[p] < |job.log[p]|
    requires var u := r.up; var pos := u.pos[p := u.pos[p] + 1];
             u' == u.(input := u.input + [Item(Src(p, u.pos[p]))], seen := u.seen + [pos], offsets := u.offsets[p := u.pos[p] + 1], pos := pos)
    ensures RunOk(job, h, e, r.(up := u'))
  {
    UpOf(job, h, e, r);
    ReadUp(job, h, r.up, p, u');
    StreamsKeep(job, h, e, r, r.(up := u'));
  }

  // ---- Passing a watermark -----------------------------------------------------------------

  lemma PassInjected(job: Job, h: Hyp, u: Upstream, time: int, u': Upstream)
    requires Shape(u) && Shape(u') && Injected(job, h, u)
    requires u' == u.(input := u.input + [Item(Mark(time))], seen := u.seen + [u.pos])
    ensures Injected(job, h, u')
  {
    var n := |u.input|;
    forall i | 0 <= i < |u'.input| && u'.input[i].Item? ensures SrcOk(job, u'.input[i].src, u'.seen[i]) {
      assert u'.seen[i] == u.seen[i] && (i < n ==> u'.input[i] == u.input[i]);
    }
    forall i | 0 <= i < |u'.input| ensures u'.seen[i + 1] == Advance(u'.seen[i], u'.input[i]) {
      assert u'.seen[i] == u.seen[i] && (i < n ==> u'.input[i] == u.input[i] && u'.seen[i + 1] == u.seen[i + 1]);
    }
  }

  lemma PassUp(job: Job, h: Hyp, u: Upstream, time: int, u': Upstream)
    requires UpOk(job, h, u) && u' == u.(input := u.input + [Item(Mark(time))], seen := u.seen + [u.pos])
    ensures UpOk(job, h, u') && Grows(u, u')
  {
    ReadShape(u, Item(Mark(time)), u.pos, u');
    PassInjected(job, h, u, time, u');
    ReadRest(job, u, u');
  }

  /** A watermark has no position: the offset map stays as it is. */
  lemma PassKeeps(job: Job, h: Hyp, e: Env, r: Run, time: int, u': Upstream)
    requires RunOk(job, h, e, r) && u' == r.up.(input := r.up.input + [Item(Mark(time))], seen := r.up.seen + [r.up.pos])
    ensures RunOk(job, h, e, r.(up := u'))
  {
    UpOf(job, h, e, r);
    PassUp(job, h, r.up, time, u');
    StreamsKeep(job, h, e, r, r.(up := u'));
  }

  // ---- Injecting a barrier -----------------------------------------------------------------

  lemma InjectShape(u: Upstream, id: Id, u': Upstream)
    requires Shape(u) && id.nonce == u.nonce && id.number == u.count + 1
    requires u' == u.(count := u.count + 1, input := u.input + [Bar(id)], seen := u.seen + [u.pos], at := u.at[id := |u.input|])
    ensures Shape(u') && Grows(u, u') && id !in u.at
  {
  }

  lemma InjectInjected(job: Job, h: Hyp, u: Upstream, id: Id, u': Upstream)
    requires Shape(u) && Shape(u') && Injected(job, h, u)
    requires u' == u.(count := u.count + 1, input := u.input + [Bar(id)], seen := u.seen + [u.pos], at := u.at[id := |u.input|])
    ensures Injected(job, h, u')
  {
  }

  lemma InjectRest(job: Job, u: Upstream, id: Id, u': Upstream)
    requires Shape(u) && Shape(u') && Linked(u) && Executed(job, u) && Snapshots(job, u) && Grows(u, u')
    requires u' == u.(count := u.count + 1, input := u.input + [Bar(id)], seen := u.seen + [u.pos], at := u.at[id := |u.input|])
    ensures Linked(u') && Executed(job, u') && Snapshots(job, u')
  {
    InjectSnapshots(job, u, u');
  }

  lemma InjectSnapshots(job: Job, u: Upstream, u': Upstream)
    requires Shape(u) && Shape(u') && Snapshots(job, u) && u'.done == u.done && u'.cuts == u.cuts && u'.snaps == u.snaps && u'.tapped == u.tapped
    requires forall id :: id in u'.at && u'.at[id] < |u.done| ==> id in u.at && u.at[id] == u'.at[id]
    ensures Snapshots(job, u')
  {
  }

  lemma InjectUp(job: Job, h: Hyp, u: Upstream, id: Id, u': Upstream)
    requires UpOk(job, h, u) && id.nonce == u.nonce && id.number == u.count + 1
    requires u' == u.(count := u.count + 1, input := u.input + [Bar(id)], seen := u.seen + [u.pos], at := u.at[id := |u.input|])
    ensures UpOk(job, h, u') && Grows(u, u') && id !in u.at
  {
    InjectShape(u, id, u');
    InjectInjected(job, h, u, id, u');
    InjectRest(job, u, id, u');
  }

  ghost predicate Injects(r: Run, id: Id, r': Run) {
    var u := r.up;
    && r'.up == u.(count := u.count + 1, input := u.input + [Bar(id)], seen := u.seen + [u.pos], at := u.at[id := |u.input|])
    && r' == r.(up := r'.up, pending := r.pending[id := PendingOf(r.pending, id).(offsets := Some(u.offsets))])
  }

  /** The offsets stored with a barrier are positions ahead of it, and all of them if the barrier finds every partition read again. */
  lemma InjectEntry(job: Job, h: Hyp, u: Upstream, id: Id, u': Upstream, pending: map<Id, Pending>)
    requires Shape(u) && Injected(job, h, u) && (h.rereads ==> Reread(u.pos, u.offsets)) && Shape(u')
    requires u' == u.(count := u.count + 1, input := u.input + [Bar(id)], seen := u.seen + [u.pos], at := u.at[id := |u.input|])
    requires id in pending && pending[id].offsets == Some(u.offsets)
    ensures EntryOk(job, h, u', pending, id)
  {
  }

  lemma InjectRegistered(job: Job, h: Hyp, r: Run, id: Id, r': Run)
    requires Shape(r.up) && Injected(job, h, r.up) && Registered(job, h, r) && (h.rereads ==> Reread(r.up.pos, r.up.offsets))
    requires Injects(r, id, r') && Shape(r'.up) && Grows(r.up, r'.up) && id !in r.up.at
    ensures Passes(r, r') && Registered(job, h, r')
  {
    InjectEntry(job, h, r.up, id, r'.up, r'.pending);
    GrowsRegistered(job, h, r, r', {id});
  }

  lemma InjectKeeps(job: Job, h: Hyp, e: Env, r: Run, id: Id, r': Run)
    requires RunOk(job, h, e, r) && id.nonce == r.up.nonce && id.number == r.up.count + 1
    requires Injects(r, id, r') && (h.rereads ==> Reread(r.up.pos, r.up.offsets))
    ensures RunOk(job, h, e, r')
  {
    UpOf(job, h, e, r);
    InjectUp(job, h, r.up, id, r'.up);
    InjectRegistered(job, h, r, id, r');
    FlowKeeps(job, h, e, r, r');
  }

  // ---- The operators ---------------------------------------------------------------------

  /** What the operators change when they handle item `x` of the input. */
  ghost predicate Handles(u: Upstream, x: Result, u': Upstream)
    requires Shape(u) && |u.done| < |u.input|
  {
    && u' == u.(done := u.done + [x], cuts := u'.cuts, state := u'.state, snaps := u'.snaps)
    && u'.cuts == u.cuts + [Extend(u.cuts[|u.done|], u.input[|u.done|], x)]
  }

  lemma DoneShape(u: Upstream, x: Result, u': Upstream)
    requires Shape(u) && |u.done| < |u.input| && Handles(u, x, u')
    ensures Shape(u') && Grows(u, u')
  {
  }

  lemma DoneInjected(job: Job, h: Hyp, u: Upstream, x: Result, u': Upstream)
    requires Shape(u) && |u.done| < |u.input| && Handles(u, x, u') && Shape(u') && Injected(job, h, u)
    ensures Injected(job, h, u')
  {
  }

  lemma DoneLinked(u: Upstream, x: Result, u': Upstream)
    requires Shape(u) && |u.done| < |u.input| && Handles(u, x, u') && Shape(u') && Linked(u)
    ensures Linked(u')
  {
  }

  lemma DoneExecuted(job: Job, u: Upstream, x: Result, u': Upstream)
    requires Shape(u) && |u.done| < |u.input| && Handles(u, x, u') && Shape(u') && Executed(job, u)
    requires CutOk(job, u'.cuts[|u.done| + 1], u.seen[|u.done| + 1]) && u'.state == StateAfter(job, u'.cuts[|u.done| + 1])
    ensures Executed(job, u')
  {
    assert forall i :: 0 <= i < |u.cuts| ==> u'.cuts[i] == u.cuts[i];
  }

  lemma DoneSnapshots(job: Job, u: Upstream, x: Result, u': Upstream)
    requires Shape(u) && |u.done| < |u.input| && Handles(u, x, u') && Shape(u') && Snapshots(job, u)
    requires if u.input[|u.done|].Item? then u'.snaps == u.snaps
             else u'.snaps == u.snaps[u.input[|u.done|].id := StateAfter(job, u.cuts[|u.done|])]
    ensures Snapshots(job, u')
  {
    assert forall i :: 0 <= i < |u.cuts| ==> u'.cuts[i] == u.cuts[i];
  }

  lemma DoneUp(job: Job, h: Hyp, u: Upstream, x: Result, u': Upstream)
    requires UpOk(job, h, u) && |u.done| < |u.input| && Handles(u, x, u')
    requires CutOk(job, Extend(u.cuts[|u.done|], u.input[|u.done|], x), u.seen[|u.done| + 1])
    requires u'.state == StateAfter(job, Extend(u.cuts[|u.done|], u.input[|u.done|], x))
    requires if u.input[|u.done|].Item? then u'.snaps == u.snaps
             else u'.snaps == u.snaps[u.input[|u.done|].id := StateAfter(job, u.cuts[|u.done|])]
    ensures UpOk(job, h, u') && Grows(u, u')
  {
    DoneShape(u, x, u');
    DoneInjected(job, h, u, x, u');
    DoneLinked(u, x, u');
    DoneExecuted(job, u, x, u');
    DoneSnapshots(job, u, x, u');
  }

  /** A record moves the execution on by one event. */
  lemma RecordCut(job: Job, h: Hyp, u: Upstream, post: Bytes, outs: seq<Bytes>)
    requires Shape(u) && Injected(job, h, u) && Executed(job, u) && |u.done| < |u.input| && u.input[|u.done|].Item?
    requires var s := u.input[|u.done|].src; SrcOk(job, s, u.seen[|u.done|]) && Moves(job, s, u.state, post, outs)
    ensures var t := Extend(u.cuts[|u.done|], u.input[|u.done|], Result(post, outs));
            CutOk(job, t, u.seen[|u.done| + 1]) && post == StateAfter(job, t)
  {
    var n := |u.done|;
    var t, x := u.cuts[n], Event(u.input[n].src, post, outs);
    assert CutOk(job, t, u.seen[n]);
    assert Follows(job, t, x);
    OnAppend(job, t, x);
  }

  lemma OnRecordKeeps(job: Job, h: Hyp, e: Env, r: Run, post: Bytes, outs: seq<Bytes>, u': Upstream)
    requires RunOk(job, h, e, r) && |r.up.done| < |r.up.input| && r.up.input[|r.up.done|].Item? && r.up.cuts != []
    requires Moves(job, r.up.input[|r.up.done|].src, r.up.state, post, outs)
    requires var u := r.up;
             u' == u.(done := u.done + [Result(post, outs)], state := post,
                      cuts := u.cuts + [Extend(Last(u.cuts), u.input[|u.done|], Result(post, outs))])
    ensures RunOk(job, h, e, r.(up := u'))
  {
    UpOf(job, h, e, r);
    RecordUp(job, h, r.up, post, outs, u');
    StreamsKeep(job, h, e, r, r.(up := u'));
  }

  lemma RecordUp(job: Job, h: Hyp, u: Upstream, post: Bytes, outs: seq<Bytes>, u': Upstream)
    requires UpOk(job, h, u) && |u.done| < |u.input| && u.input[|u.done|].Item? && u.cuts != []
    requires Moves(job, u.input[|u.done|].src, u.state, post, outs)
    requires u' == u.(done := u.done + [Result(post, outs)], state := post,
                      cuts := u.cuts + [Extend(Last(u.cuts), u.input[|u.done|], Result(post, outs))])
    ensures UpOk(job, h, u') && Grows(u, u')
  {
    assert Last(u.cuts) == u.cuts[|u.done|];
    RecordCut(job, h, u, post, outs);
    DoneUp(job, h, u, Result(post, outs), u');
  }

  lemma OnRecordStep(job: Job, h: Hyp, e: Env, r: Run, l: Label, r': Run)
    requires RunOk(job, h, e, r) && l.OnRecord? && Flow(job, r, l) == Some(r')
    ensures RunOk(job, h, e, r')
  {
    OnRecordKeeps(job, h, e, r, l.post, l.outs, r'.up);
  }

  /** A barrier leaves the execution where it is. */
  lemma BarrierCutOk(job: Job, h: Hyp, u: Upstream)
    requires Shape(u) && Injected(job, h, u) && Executed(job, u) && |u.done| < |u.input| && u.input[|u.done|].Bar?
    ensures var t := Extend(u.cuts[|u.done|], u.input[|u.done|], Result(u.state, []));
            CutOk(job, t, u.seen[|u.done| + 1]) && u.state == StateAfter(job, t)
  {
    assert CutOk(job, u.cuts[|u.done|], u.seen[|u.done|]);
  }

  lemma OnBarrierKeeps(job: Job, h: Hyp, e: Env, r: Run, l: Label, r': Run)
    requires h.snapshotsFit && RunOk(job, h, e, r) && l.OnBarrier? && MeetsRun(h, e.dir, r, l) && Flow(job, r, l) == Some(r')
    ensures RunOk(job, h, e, r')
  {
    UpOf(job, h, e, r);
    BarrierCutOk(job, h, r.up);
    DoneUp(job, h, r.up, Result(r.up.state, []), r'.up);
    StreamsKeep(job, h, e, r, r');
  }

  // ---- The tap ------------------------------------------------------------------------------

  /** What the tap changes upstream. */
  ghost predicate Taps(u: Upstream, u': Upstream) {
    && u.tapped < |u.done| && u.tapped < |u.input| && u' == u.(tapped := u.tapped + 1, snaps := u'.snaps)
    && u'.snaps == if u.input[u.tapped].Item? then u.snaps else u.snaps - {u.input[u.tapped].id}
  }

  function TappedState(u: Upstream, id: Id): Bytes {
    if id in u.snaps then u.snaps[id] else u.state
  }

  ghost predicate TapsRun(r: Run, r': Run) {
    && Taps(r.up, r'.up) && r' == r.(up := r'.up, pending := r'.pending)
    && r'.pending == match r.up.input[r.up.tapped]
                     case Item(_) => r.pending
                     case Bar(id) => r.pending[id := PendingOf(r.pending, id).(state := Some(TappedState(r.up, id)))]
  }

  lemma TapShape(u: Upstream, u': Upstream)
    requires Shape(u) && Taps(u, u')
    ensures Shape(u') && Grows(u, u')
  {
  }

  lemma TapSnapshots(job: Job, u: Upstream, u': Upstream)
    requires Shape(u) && Taps(u, u') && Shape(u') && Snapshots(job, u)
    ensures Snapshots(job, u')
  {
    forall id | id in u'.at && u'.tapped <= u'.at[id] < |u'.done|
      ensures id in u'.snaps && u'.snaps[id] == StateAfter(job, u'.cuts[u'.at[id]]) {
      assert id in u.snaps;
    }
  }

  lemma TapStreams(job: Job, h: Hyp, u: Upstream, u': Upstream)
    requires Shape(u) && Taps(u, u') && Shape(u') && Injected(job, h, u) && Linked(u) && Executed(job, u)
    ensures Injected(job, h, u') && Linked(u') && Executed(job, u')
  {
  }

  /** The tap registers the snapshot of the barrier, not the live state. */
  lemma TapEntry(job: Job, h: Hyp, r: Run, r': Run, id: Id)
    requires Shape(r.up) && Shape(r'.up) && Snapshots(job, r.up) && Registered(job, h, r) && Taps(r.up, r'.up)
    requires r.sunk <= r.up.tapped && r.up.input[r.up.tapped] == Bar(id) && id in r.up.snaps
    requires r'.pending == r.pending[id := PendingOf(r.pending, id).(state := Some(TappedState(r.up, id)))]
    ensures EntryOk(job, h, r'.up, r'.pending, id)
  {
    assert Open(r, id);
    assert EntryOk(job, h, r.up, r.pending, id);
  }

  /** A barrier that the operators have passed has its snapshot waiting at the tap. */
  lemma SnapshotWaits(job: Job, u: Upstream)
    requires Shape(u) && Snapshots(job, u) && u.tapped < |u.done| && u.input[u.tapped].Bar?
    ensures u.input[u.tapped].id in u.snaps && u.input[u.tapped].id in u.at && u.at[u.input[u.tapped].id] == u.tapped
  {
  }

  lemma TapRegistered(job: Job, h: Hyp, r: Run, r': Run)
    requires Shape(r.up) && Snapshots(job, r.up) && Registered(job, h, r) && r.sunk <= r.up.tapped && TapsRun(r, r')
    requires Shape(r'.up) && Grows(r.up, r'.up)
    ensures Passes(r, r') && Registered(job, h, r')
  {
    if r.up.input[r.up.tapped].Bar? {
      TapBarrier(job, h, r, r', r.up.input[r.up.tapped].id);
    } else {
      TapRecord(job, h, r, r');
    }
  }

  lemma TapRecord(job: Job, h: Hyp, r: Run, r': Run)
    requires Shape(r.up) && Registered(job, h, r) && TapsRun(r, r') && r.up.input[r.up.tapped].Item?
    requires Shape(r'.up) && Grows(r.up, r'.up)
    ensures Passes(r, r') && Registered(job, h, r')
  {
    GrowsRegistered(job, h, r, r', {});
  }

  lemma TapBarrier(job: Job, h: Hyp, r: Run, r': Run, id: Id)
    requires Shape(r.up) && Snapshots(job, r.up) && Registered(job, h, r) && r.sunk <= r.up.tapped && TapsRun(r, r')
    requires r.up.input[r.up.tapped] == Bar(id) && Shape(r'.up) && Grows(r.up, r'.up)
    ensures Passes(r, r') && Registered(job, h, r')
  {
    SnapshotWaits(job, r.up);
    TapEntry(job, h, r, r', id);
    GrowsRegistered(job, h, r, r', {id});
  }

  lemma TapUp(job: Job, h: Hyp, u: Upstream, u': Upstream)
    requires UpOk(job, h, u) && Taps(u, u')
    ensures UpOk(job, h, u') && Grows(u, u')
  {
    TapShape(u, u');
    TapSnapshots(job, u, u');
    TapStreams(job, h, u, u');
  }

  lemma TapKeeps(job: Job, h: Hyp, e: Env, r: Run, r': Run)
    requires RunOk(job, h, e, r) && TapsRun(r, r')
    ensures RunOk(job, h, e, r')
  {
    UpOf(job, h, e, r);
    TapUp(job, h, r.up, r'.up);
    TapRegistered(job, h, r, r');
    FlowKeeps(job, h, e, r, r');
  }

  lemma FlowFin(job: Job, r: Run, l: Label, r': Run)
    requires Flow(job, r, l) == Some(r')
    ensures r'.fin == r.fin && Flows(l)
  {
  }

  lemma TapStepKeeps(job: Job, h: Hyp, e: Env, r: Run, l: Label, r': Run)
    requires RunOk(job, h, e, r) && l.Tap? && Flow(job, r, l) == Some(r')
    ensures RunOk(job, h, e, r')
  {
    TapKeeps(job, h, e, r, r');
  }

  lemma FlowStepKeeps(job: Job, h: Hyp, e: Env, r: Run, l: Label, r': Run)
    requires Base(h) && RunOk(job, h, e, r) && MeetsRun(h, e.dir, r, l) && Flow(job, r, l) == Some(r')
    ensures RunOk(job, h, e, r') && r'.fin == r.fin
  {
    FlowFin(job, r, l, r');
    if l.Read? || l.Pass? || l.Inject? {
      SourceKeeps(job, h, e, r, l, r');
    } else if l.OnRecord? {
      OnRecordStep(job, h, e, r, l, r');
    } else if l.OnBarrier? {
      OnBarrierKeeps(job, h, e, r, l, r');
    } else {
      TapStepKeeps(job, h, e, r, l, r');
    }
  }

  lemma SourceKeeps(job: Job, h: Hyp, e: Env, r: Run, l: Label, r': Run)
    requires RunOk(job, h, e, r) && MeetsRun(h, e.dir, r, l) && (l.Read? || l.Pass? || l.Inject?) && Flow(job, r, l) == Some(r')
    ensures RunOk(job, h, e, r')
  {
    if l.Read? {
      ReadKeeps(job, h, e, r, l.part, r'.up);
    } else if l.Pass? {
      PassKeeps(job, h, e, r, l.time, r'.up);
    } else {
      InjectKeeps(job, h, e, r, Id(r.up.nonce, r.up.count + 1, l.suffix), r');
    }
  }

  // ---- The sink -----------------------------------------------------------------

  lemma SinkRegistered(job: Job, h: Hyp, r: Run, r': Run)
    requires Shape(r.up) && Registered(job, h, r) && r'.up == r.up
    requires forall id :: Open(r', id) ==> Open(r, id)
    requires forall id :: Open(r', id) && id in r.pending && r.pending[id].offsets.Some? ==>
               id in r'.pending && r'.pending[id].offsets == r.pending[id].offsets && r'.pending[id].state == r.pending[id].state
    ensures Registered(job, h, r')
  {
    forall id | Open(r', id) ensures EntryOk(job, h, r'.up, r'.pending, id) {
      assert EntryOk(job, h, r.up, r.pending, id);
    }
  }

  /** A record taken by the sink moves the output ahead of it from the stream into the transaction. */
  lemma OutputsMove(job: Job, u: Upstream, n: nat)
    requires Shape(u) && Linked(u) && n < |u.done| && u.input[n].Item?
    ensures Outputs(u.cuts[n + 1]) == Outputs(u.cuts[n]) + u.done[n].outs && u.cuts[n] <= u.cuts[n + 1]
  {
    var x := Event(u.input[n].src, u.done[n].post, u.done[n].outs);
    assert u.cuts[n + 1] == u.cuts[n] + [x];
    OnAppend(job, u.cuts[n], x);
  }

  lemma ProduceStaged(job: Job, e: Env, r: Run, ok: bool, r': Run)
    requires Shape(r.up) && Linked(r.up) && r.sunk < r.up.tapped && Staged(e, r) && !r.fin.Ending? && r.up.input[r.sunk].Item?
    requires r' == if ok then r.(sunk := r.sunk + 1, txn := r.txn + r.up.done[r.sunk].outs) else r.(sunk := r.sunk + 1, produceErr := true)
    ensures Staged(e, r')
  {
    OutputsMove(job, r.up, r.sunk);
    Assoc(e.visible, r.txn, r.up.done[r.sunk].outs);
    StagedNext(e, r, ok, r');
  }

  lemma StagedNext(e: Env, r: Run, ok: bool, r': Run)
    requires Shape(r.up) && r.sunk < r.up.tapped && Staged(e, r) && !r.fin.Ending?
    requires var t, t', outs := r.up.cuts[r.sunk], r.up.cuts[r.sunk + 1], r.up.done[r.sunk].outs;
             t <= t' && Outputs(t') == Outputs(t) + outs && (e.visible + r.txn) + outs == e.visible + (r.txn + outs)
    requires r' == if ok then r.(sunk := r.sunk + 1, txn := r.txn + r.up.done[r.sunk].outs) else r.(sunk := r.sunk + 1, produceErr := true)
    ensures Staged(e, r')
  {
  }

  lemma ProduceFinalizing(job: Job, h: Hyp, e: Env, r: Run, r': Run)
    requires Finalizing(job, h, e, r) && !r.fin.Ending? && r'.fin == r.fin
    ensures Finalizing(job, h, e, r')
  {
  }

  lemma ProduceNamed(e: Env, r: Run, r': Run)
    requires Named(e, r) && r'.up == r.up && r'.events == r.events && r'.sunk >= r.sunk
    ensures Named(e, r')
  {
  }

  lemma ProduceRest(job: Job, h: Hyp, r: Run, r': Run)
    requires Shape(r.up) && Registered(job, h, r) && Handshake(job, h, r) && r.waiting.None?
    requires r' == r.(sunk := r.sunk + 1, txn := r'.txn, produceErr := r'.produceErr)
    ensures Registered(job, h, r') && Handshake(job, h, r')
  {
    SinkRegistered(job, h, r, r');
  }

  lemma ProduceFacts(job: Job, h: Hyp, e: Env, r: Run, ok: bool, r': Run)
    requires RunFacts(job, h, e, r) && r.sunk < r.up.tapped && r.up.input[r.sunk].Item? && r.waiting.None?
    requires r' == if ok then r.(sunk := r.sunk + 1, txn := r.txn + r.up.done[r.sunk].outs) else r.(sunk := r.sunk + 1, produceErr := true)
    ensures RunFacts(job, h, e, r')
  {
    ProduceStaged(job, e, r, ok, r');
    ProduceRest(job, h, r, r');
    ProduceNamed(e, r, r');
    if !r.fatal {
      ProduceFinalizing(job, h, e, r, r');
    }
  }

  lemma BarrierStays(u: Upstream, n: nat)
    requires Shape(u) && Linked(u) && n < |u.done| && u.input[n].Bar?
    ensures u.cuts[n + 1] == u.cuts[n]
  {
  }

  lemma StagedSame(e: Env, r: Run, r': Run)
    requires Shape(r.up) && r.sunk < r.up.tapped && Staged(e, r) && r.up.cuts[r.sunk + 1] == r.up.cuts[r.sunk]
    requires r' == r.(sunk := r.sunk + 1, waiting := r'.waiting, events := r'.events, pending := r'.pending)
    ensures Staged(e, r')
  {
  }

  lemma PrepareStaged(job: Job, e: Env, r: Run, r': Run)
    requires Shape(r.up) && Linked(r.up) && r.sunk < r.up.tapped && Staged(e, r) && r.up.input[r.sunk].Bar?
    requires r' == r.(sunk := r.sunk + 1, waiting := r'.waiting, events := r'.events, pending := r'.pending)
    ensures Staged(e, r')
  {
    BarrierStays(r.up, r.sunk);
    StagedSame(e, r, r');
  }

  lemma PrepareRegistered(job: Job, h: Hyp, r: Run, id: Id, err: bool, r': Run)
    requires Shape(r.up) && Registered(job, h, r) && r.sunk < |r.up.input| && r.up.input[r.sunk] == Bar(id)
    requires r'.up == r.up && r'.sunk == r.sunk + 1 && r'.events == r.events + [id]
    requires r'.pending == r.pending[id := PendingOf(r.pending, id).(err := err)]
    ensures Registered(job, h, r')
  {
    assert Open(r, id);
    SinkRegistered(job, h, r, r');
  }

  lemma PrepareHandshake(job: Job, h: Hyp, r: Run, id: Id, err: bool, r': Run)
    requires Shape(r.up) && Handshake(job, h, r) && r.sunk < |r.up.input| && r.up.input[r.sunk] == Bar(id) && r.waiting.None?
    requires r' == r.(sunk := r.sunk + 1, waiting := Some(id), events := r.events + [id], pending := r'.pending)
    requires r'.pending == r.pending[id := PendingOf(r.pending, id).(err := err)] && (r.produceErr ==> err)
    ensures Handshake(job, h, r')
  {
  }

  lemma PrepareNamed(e: Env, r: Run, id: Id, r': Run)
    requires Shape(r.up) && Named(e, r) && r.sunk < |r.up.input| && r.up.input[r.sunk] == Bar(id)
    requires r'.up == r.up && r'.sunk == r.sunk + 1 && r'.events == r.events + [id]
    ensures Named(e, r')
  {
    assert id in r.up.at && r.up.at[id] == r.sunk;
    assert id !in e.dir.files && id !in e.markers;
  }

  lemma PrepareFinalizing(job: Job, h: Hyp, e: Env, r: Run, r': Run)
    requires Finalizing(job, h, e, r) && Between(r.fin) && r'.fin == r.fin
    ensures Finalizing(job, h, e, r')
  {
  }

  lemma PrepareFacts(job: Job, h: Hyp, e: Env, r: Run, id: Id, err: bool, r': Run)
    requires RunFacts(job, h, e, r) && r.sunk < r.up.tapped && r.up.input[r.sunk] == Bar(id) && r.waiting.None?
    requires r' == r.(sunk := r.sunk + 1, waiting := Some(id), events := r.events + [id], pending := r'.pending)
    requires r'.pending == r.pending[id := PendingOf(r.pending, id).(err := err)] && (r.produceErr ==> err)
    ensures RunFacts(job, h, e, r')
  {
    PrepareStaged(job, e, r, r');
    PrepareRegistered(job, h, r, id, err, r');
    PrepareHandshake(job, h, r, id, err, r');
    PrepareNamed(e, r, id, r');
    if !r.fatal {
      PrepareFinalizing(job, h, e, r, r');
    }
  }

  lemma ProduceKeeps(job: Job, h: Hyp, e: Env, r: Run, ok: bool, r': Run)
    requires RunOk(job, h, e, r) && r.sunk < r.up.tapped && r.sunk < |r.up.input| && r.sunk < |r.up.done|
    requires r.up.input[r.sunk].Item? && r.waiting.None?
    requires r' == if ok then r.(sunk := r.sunk + 1, txn := r.txn + r.up.done[r.sunk].outs) else r.(sunk := r.sunk + 1, produceErr := true)
    ensures RunOk(job, h, e, r')
  {
    assert UnfoldRun(r);
    ProduceFacts(job, h, e, r, ok, r');
  }

  lemma PrepareKeeps(job: Job, h: Hyp, e: Env, r: Run, id: Id, err: bool, r': Run)
    requires RunOk(job, h, e, r) && r.sunk < r.up.tapped && r.sunk < |r.up.input| && r.up.input[r.sunk] == Bar(id) && r.waiting.None?
    requires r' == r.(sunk := r.sunk + 1, waiting := Some(id), events := r.events + [id], pending := r'.pending)
    requires r'.pending == r.pending[id := PendingOf(r.pending, id).(err := err)] && (r.produceErr ==> err)
    ensures RunOk(job, h, e, r')
  {
    assert UnfoldRun(r);
    PrepareFacts(job, h, e, r, id, err, r');
  }

  lemma SinkStepKeeps(job: Job, h: Hyp, e: Env, r: Run, l: Label, r': Run)
    requires RunOk(job, h, e, r) && Sinks(l) && Sink(r, l) == Some(r')
    ensures RunOk(job, h, e, r') && r'.fin == r.fin
  {
    if l.Produce? {
      ProduceKeeps(job, h, e, r, l.ok, r');
    } else {
      PrepareKeeps(job, h, e, r, r.up.input[r.sunk].id, !l.ok || r.produceErr, r');
    }
  }
}
