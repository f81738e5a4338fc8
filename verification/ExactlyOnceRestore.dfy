/** When a restore point is right. */
module ExactlyOnceRestore {
  // When a restore point is right. The conditions of `AsWrittenExactlyOnce` on barriers and on
  // fallbacks are sufficient for every job. This module gives the exact condition on a restore
  // point for jobs whose records all produce output: for them a run is exactly-once if and only if
  // every restore point resumes each partition right behind its visible output.

  import opened Prelude
  import opened CheckpointFiles
  import opened ExactlyOnce
  import opened ExactlyOnceInvariant
  import opened ExactlyOnceTheorem
  import ExactlyOnceRecovery

  // ---- How much output an execution has ----------------------------------------------------

  /** Every record produces a fixed number of outputs, at least one, and watermarks leave the job as it is. */
  ghost predicate Emits(job: Job, f: Bytes -> nat) {
    && (forall r: Bytes :: f(r) >= 1)
    && (forall s: Bytes, r: Bytes, s2: Bytes, outs: seq<Bytes> :: job.rel(s, r, s2, outs) ==> |outs| == f(r))
    && forall s: Bytes, t: int, s2: Bytes, outs: seq<Bytes> :: job.mark(s, t, s2, outs) ==> s2 == s && outs == []
  }

  /** The outputs of the first `n` records of a partition. */
  ghost function Produced(f: Bytes -> nat, log: seq<Bytes>, n: nat): nat {
    if n == 0 || n > |log| then 0 else Produced(f, log, n - 1) + f(log[n - 1])
  }

  lemma {:induction false} ProducedGrows(f: Bytes -> nat, log: seq<Bytes>, m: nat, n: nat)
    requires m <= n <= |log| && forall r: Bytes :: f(r) >= 1
    ensures Produced(f, log, m) <= Produced(f, log, n)
    ensures m < n ==> Produced(f, log, m) < Produced(f, log, n)
  {
    if m < n { ProducedGrows(f, log, m, n - 1); }
  }

  /** The outputs of the first `n` partitions read up to `pos`. */
  ghost function Volume(job: Job, f: Bytes -> nat, pos: seq<nat>, n: nat): nat
    requires n <= |pos| == |job.log|
  {
    if n == 0 then 0 else Volume(job, f, pos, n - 1) + Produced(f, job.log[n - 1], pos[n - 1])
  }

  lemma {:induction false} VolumeSame(job: Job, f: Bytes -> nat, pos: seq<nat>, p: nat, x: nat, n: nat)
    requires n <= p < |pos| == |job.log|
    ensures Volume(job, f, pos[p := x], n) == Volume(job, f, pos, n)
  {
    if n > 0 { VolumeSame(job, f, pos, p, x, n - 1); }
  }

  lemma {:induction false} VolumeStep(job: Job, f: Bytes -> nat, pos: seq<nat>, p: nat, n: nat)
    requires p < n <= |pos| == |job.log| && pos[p] < |job.log[p]|
    ensures Volume(job, f, pos[p := pos[p] + 1], n) == Volume(job, f, pos, n) + f(job.log[p][pos[p]])
  {
    if p == n - 1 {
      VolumeSame(job, f, pos, p, pos[p] + 1, n - 1);
    } else {
      VolumeStep(job, f, pos, p, n - 1);
    }
  }

  ghost predicate UpTo(job: Job, pos: seq<nat>) {
    |pos| == |job.log| && forall p :: 0 <= p < |pos| ==> pos[p] <= |job.log[p]|
  }

  /** Reading further produces more. */
  lemma {:induction false} VolumeGrows(job: Job, f: Bytes -> nat, a: seq<nat>, b: seq<nat>, n: nat)
    requires UpTo(job, a) && UpTo(job, b) && n <= |a| && forall r: Bytes :: f(r) >= 1
    requires forall p :: 0 <= p < n ==> a[p] <= b[p]
    ensures Volume(job, f, a, n) <= Volume(job, f, b, n)
    ensures Volume(job, f, a, n) == Volume(job, f, b, n) ==> forall p :: 0 <= p < n ==> a[p] == b[p]
  {
    if n > 0 {
      VolumeGrows(job, f, a, b, n - 1);
      ProducedGrows(f, job.log[n - 1], a[n - 1], b[n - 1]);
    }
  }

  /** The positions of the first `n` partitions behind `t`. */
  ghost function Ends(t: Trace, n: nat): (pos: seq<nat>)
    ensures |pos| == n && forall p :: 0 <= p < n ==> pos[p] == Reads(t, p)
  {
    if n == 0 then [] else Ends(t, n - 1) + [Reads(t, n - 1)]
  }

  lemma EndsAppend(job: Job, t: Trace, x: Event)
    requires Execution(job, t + [x])
    ensures Execution(job, t) && Follows(job, t, x)
    ensures Ends(t + [x], |job.log|) == if x.src.Src? then Ends(t, |job.log|)[x.src.part := x.src.off + 1] else Ends(t, |job.log|)
    ensures Outputs(t + [x]) == Outputs(t) + x.outs
  {
    assert (t + [x])[..|t|] == t;
    OnAppend(job, t, x);
  }

  lemma VolumeZero(job: Job, f: Bytes -> nat, pos: seq<nat>, n: nat)
    requires n <= |pos| == |job.log| && forall p :: 0 <= p < n ==> pos[p] == 0
    ensures Volume(job, f, pos, n) == 0
  {
  }

  /** The number of outputs of an execution depends on its positions alone. */
  lemma {:induction false} OutputCount(job: Job, f: Bytes -> nat, t: Trace)
    requires Emits(job, f) && Execution(job, t)
    ensures UpTo(job, Ends(t, |job.log|)) && |Outputs(t)| == Volume(job, f, Ends(t, |job.log|), |job.log|)
  {
    if t == [] {
      VolumeZero(job, f, Ends(t, |job.log|), |job.log|);
    } else {
      var u, x := t[..|t| - 1], t[|t| - 1];
      assert t == u + [x];
      OutputCount(job, f, u);
      EndsAppend(job, u, x);
      if x.src.Src? {
        VolumeStep(job, f, Ends(u, |job.log|), x.src.part, |job.log|);
      }
    }
  }

  /** Of two executions with equally many outputs neither has read strictly less than the other. */
  lemma SameOutputs(job: Job, f: Bytes -> nat, t: Trace, u: Trace)
    requires Emits(job, f) && Execution(job, t) && Execution(job, u) && |Outputs(t)| == |Outputs(u)|
    requires forall p: nat :: Reads(t, p) <= Reads(u, p)
    ensures forall p: nat :: p < |job.log| ==> Reads(t, p) == Reads(u, p)
  {
    OutputCount(job, f, t);
    OutputCount(job, f, u);
    VolumeGrows(job, f, Ends(t, |job.log|), Ends(u, |job.log|), |job.log|);
    forall p: nat | p < |job.log| ensures Reads(t, p) == Reads(u, p) {
      assert Ends(t, |job.log|)[p] == Ends(u, |job.log|)[p];
    }
  }

  // ---- Restore points ------------------------------------------------------------------------

  lemma {:induction false} ReadsGrow(t: Trace, k: nat, p: nat)
    requires k <= |t|
    ensures Reads(t[..k], p) <= Reads(t, p)
    ensures k < |t| && ReadFrom(t[k].src, p) ==> Reads(t[..k], p) < Reads(t, p)
  {
    if k < |t| {
      var u := t[..|t| - 1];
      ReadsGrow(u, k, p);
      assert u[..k] == t[..k];
    } else {
      assert t[..k] == t;
    }
  }

  function StoredIn(from: Option<Checkpoint>): map<nat, nat> {
    if from.Some? then from.value.offsets else map[]
  }

  /** Every partition resumes right behind its last record whose output is visible. */
  ghost predicate Accounts(from: Option<Checkpoint>, t: Trace) {
    forall p: nat :: Resume(StoredIn(from), p) == Reads(t, p)
  }

  /** What reads nothing further leaves the state as it is. */
  lemma {:induction false} SameState(job: Job, f: Bytes -> nat, t: Trace, k: nat)
    requires Emits(job, f) && Execution(job, t) && k <= |t| && forall p: nat :: Reads(t[..k], p) == Reads(t, p)
    ensures StateAfter(job, t[..k]) == StateAfter(job, t)
  {
    if k < |t| {
      var u := t[..|t| - 1];
      var x := t[|t| - 1];
      assert u[..k] == t[..k];
      forall p: nat ensures Reads(t[..k], p) == Reads(u, p) && !ReadFrom(x.src, p) {
        ReadsGrow(u, k, p);
      }
      SameState(job, f, u, k);
      assert x.src.Src? ==> ReadFrom(x.src, x.src.part);
    } else {
      assert t[..k] == t;
    }
  }

  /** A checkpoint taken on the way of `t` that accounts for all of `t` is one of its end. */
  lemma AccountsSelects(job: Job, f: Bytes -> nat, h: Hyp, c: Checkpoint, t: Trace)
    requires Emits(job, f) && Execution(job, t) && Within(job, h, c, t) && Accounts(Some(c), t)
    ensures Selects(job, Some(c), t)
  {
    var k: nat :| TakenAfter(job, h, c, t, k);
    forall p: nat ensures Reads(t[..k], p) == Reads(t, p) == Resume(c.offsets, p) {
      assert Resume(StoredIn(Some(c)), p) == Reads(t, p);
      ReadsGrow(t, k, p);
    }
    SameState(job, f, t, k);
  }

  /** A checkpoint taken on the way of `t` holds no position beyond it. */
  lemma WithinBehind(job: Job, h: Hyp, c: Checkpoint, t: Trace, p: nat)
    requires Within(job, h, c, t)
    ensures Resume(c.offsets, p) <= Reads(t, p)
  {
    var k: nat :| TakenAfter(job, h, c, t, k);
    ReadsGrow(t, k, p);
  }

  lemma SelectsAccounts(job: Job, f: Bytes -> nat, h: Hyp, c: Checkpoint, t: Trace, u: Trace)
    requires Emits(job, f) && Execution(job, t) && Execution(job, u) && Within(job, h, c, t)
    requires Selects(job, Some(c), u) && |Outputs(u)| == |Outputs(t)|
    ensures Accounts(Some(c), t)
  {
    forall p: nat ensures Reads(u, p) == Resume(c.offsets, p) <= Reads(t, p) {
      WithinBehind(job, h, c, t, p);
    }
    SameOutputs(job, f, u, t);
    forall p: nat ensures Resume(c.offsets, p) == Reads(t, p) {
      if p >= |job.log| { ExactlyOnceRecovery.NoReadsOutside(job, t, p); }
    }
  }

  /**
    The exact condition on a restore point: it is the end of an execution with the visible output
    if and only if its positions account for that output. That its operator state is right as
    well follows.
   */
  lemma RestoreIff(job: Job, f: Bytes -> nat, h: Hyp, w: World)
    requires Emits(job, f) && Inv(job, h, w) && w.proc.Restoring?
    ensures ExactlyOnceIn(job, w) <==> Accounts(w.proc.from, w.env.trace)
    ensures ExactlyOnceIn(job, w) <==> LaunchOk(job, w)
  {
    var from, t := w.proc.from, w.env.trace;
    assert UnfoldEnv(w.env);
    if from.Some? {
      if ExactlyOnceIn(job, w) {
        var u :| Execution(job, u) && Outputs(u) == w.env.visible && Selects(job, from, u);
        SelectsAccounts(job, f, h, from.value, t, u);
      }
      if Accounts(from, t) {
        AccountsSelects(job, f, h, from.value, t);
        InvExactlyOnce(job, h, w);
      }
      if LaunchOk(job, w) {
        InvExactlyOnce(job, h, w);
      }
    } else {
      InvExactlyOnce(job, h, w);
    }
  }

  // ---- Whole runs ------------------------------------------------------------------------------

  /** Every world of the run `ls` is exactly-once. */
  ghost predicate ExactlyOnceAlong(job: Job, h: Hyp, ls: seq<Label>) {
    forall k :: 0 <= k <= |ls| && Exec(job, h, Init(), ls[..k]).Some? ==> ExactlyOnceIn(job, Exec(job, h, Init(), ls[..k]).value)
  }

  ghost predicate AccountedIn(w: World) {
    w.proc.Restoring? ==> Accounts(w.proc.from, w.env.trace)
  }

  /** Every restore point chosen in the run `ls` accounts for the output visible at that time. */
  ghost predicate AccountedAlong(job: Job, h: Hyp, ls: seq<Label>) {
    forall k :: 0 <= k <= |ls| && Exec(job, h, Init(), ls[..k]).Some? ==> AccountedIn(Exec(job, h, Init(), ls[..k]).value)
  }

  lemma AlongPrefix(job: Job, h: Hyp, ls: seq<Label>, n: nat)
    requires n <= |ls|
    ensures ExactlyOnceAlong(job, h, ls) ==> ExactlyOnceAlong(job, h, ls[..n])
    ensures AccountedAlong(job, h, ls) ==> AccountedAlong(job, h, ls[..n])
  {
    assert forall k :: 0 <= k <= n ==> ls[..n][..k] == ls[..k];
  }

  lemma AlongEnd(job: Job, h: Hyp, ls: seq<Label>)
    requires Exec(job, h, Init(), ls).Some?
    ensures ExactlyOnceAlong(job, h, ls) ==> ExactlyOnceIn(job, Exec(job, h, Init(), ls).value)
    ensures AccountedAlong(job, h, ls) ==> AccountedIn(Exec(job, h, Init(), ls).value)
  {
    assert ls[..|ls|] == ls;
  }

  /** As long as either holds so far, the invariant does. */
  lemma {:induction false} AlongInv(job: Job, f: Bytes -> nat, h: Hyp, ls: seq<Label>)
    requires Base(h) && Emits(job, f) && Exec(job, h, Init(), ls).Some?
    requires ls != [] ==> ExactlyOnceAlong(job, h, ls[..|ls| - 1]) || AccountedAlong(job, h, ls[..|ls| - 1])
    ensures Inv(job, h, Exec(job, h, Init(), ls).value)
  {
    if ls == [] {
      InitInv(job, h);
    } else {
      var us := ls[..|ls| - 1];
      var w := Exec(job, h, Init(), us).value;
      if us != [] { AlongPrefix(job, h, us, |us| - 1); }
      AlongInv(job, f, h, us);
      AlongEnd(job, h, us);
      if w.proc.Restoring? { RestoreIff(job, f, h, w); }
      StepKeeps(job, h, w, ls[|ls| - 1]);
    }
  }

  lemma AlongIff(job: Job, f: Bytes -> nat, h: Hyp, w: World)
    requires Emits(job, f) && Inv(job, h, w)
    ensures ExactlyOnceIn(job, w) <==> AccountedIn(w)
  {
    if w.proc.Restoring? {
      RestoreIff(job, f, h, w);
    } else {
      InvExactlyOnce(job, h, w);
    }
  }

  lemma AlongAt(job: Job, f: Bytes -> nat, h: Hyp, ls: seq<Label>, k: nat)
    requires Base(h) && Emits(job, f) && k <= |ls| && Exec(job, h, Init(), ls[..k]).Some?
    requires ExactlyOnceAlong(job, h, ls) || AccountedAlong(job, h, ls)
    ensures var w := Exec(job, h, Init(), ls[..k]).value; ExactlyOnceIn(job, w) && AccountedIn(w)
  {
    var us := ls[..k];
    AlongPrefix(job, h, ls, k);
    if k > 0 { AlongPrefix(job, h, us, k - 1); }
    AlongInv(job, f, h, us);
    AlongEnd(job, h, us);
    AlongIff(job, f, h, Exec(job, h, Init(), us).value);
  }

  /**
    Run by run, whatever its barriers and fallbacks find: a run is exactly-once throughout if and
    only if every restore point chosen in it accounts for the output visible at that time.
   */
  lemma RunIff(job: Job, f: Bytes -> nat, h: Hyp, ls: seq<Label>)
    requires Base(h) && Emits(job, f)
    ensures ExactlyOnceAlong(job, h, ls) <==> AccountedAlong(job, h, ls)
  {
    if ExactlyOnceAlong(job, h, ls) || AccountedAlong(job, h, ls) {
      forall k: nat | k <= |ls| && Exec(job, h, Init(), ls[..k]).Some?
        ensures var w := Exec(job, h, Init(), ls[..k]).value; ExactlyOnceIn(job, w) && AccountedIn(w)
      {
        AlongAt(job, f, h, ls, k);
      }
    }
  }

  // ---- The two ways a restore point goes wrong ---------------------------------------------------

  /** The worlds before the end of the run `ls` are exactly-once. */
  ghost predicate ExactlyOnceBefore(job: Job, h: Hyp, ls: seq<Label>) {
    ls != [] ==> ExactlyOnceAlong(job, h, ls[..|ls| - 1])
  }

  /**
    A partition missing from the offset map. In a run whose fallbacks find the newest done
    checkpoint, a restore point is right if and only if every partition that has been read has an
    entry in its map.
   */
  lemma MissingPartitionIff(job: Job, f: Bytes -> nat, h: Hyp, ls: seq<Label>, w: World)
    requires Base(h) && Fixed(h) && Emits(job, f) && Exec(job, h, Init(), ls) == Some(w) && ExactlyOnceBefore(job, h, ls)
    requires w.proc.Restoring? && w.proc.from.Some?
    ensures ExactlyOnceIn(job, w) <==> Whole(w.proc.from.value, w.env.trace)
  {
    AlongInv(job, f, h, ls);
    RestoreIff(job, f, h, w);
    SelectsIff(job, w.proc.from.value, w.env.trace);
  }

  ghost predicate SamePositions(a: Checkpoint, b: Checkpoint) {
    forall p: nat :: Resume(a.offsets, p) == Resume(b.offsets, p)
  }

  /** The newest done file holds other positions than `c`. */
  ghost predicate Stale(d: Dir, c: Checkpoint) {
    exists n :: IsTop(d, n) && !SamePositions(d.files[n].data, c)
  }

  lemma {:induction false} NewestOf(d: Dir, s: set<Id>) returns (n: Id)
    requires Readable(d) && Distinct(d) && s != {} && s <= d.files.Keys
    ensures n in s && forall j :: j in s && j != n ==> Earlier(d, j, n)
    decreases |s|
  {
    var k :| k in s;
    n := k;
    if s != {k} {
      var rest := s - {k};
      var m := NewestOf(d, rest);
      assert Earlier(d, k, m) || Earlier(d, m, k);
      if Earlier(d, k, m) { n := m; }
      assert forall j :: j in s ==> j == k || j in rest;
    } else {
      assert forall j :: j in s ==> j == k;
    }
  }

  lemma TopExists(d: Dir, i: Id) returns (n: Id)
    requires Readable(d) && Distinct(d) && DoneFile(d, i)
    ensures IsTop(d, n)
  {
    var done := set j | j in d.files && DoneFile(d, j);
    assert i in done;
    n := NewestOf(d, done);
    assert forall j :: DoneFile(d, j) ==> j in done;
    assert n in done;
  }

  /** Only a completed pointer behind a newer done file gives a stale answer. */
  lemma StaleIsBehind(d: Dir, c: Checkpoint)
    requires Readable(d) && Distinct(d) && CompletedAnswers(d, Some(c)) && Stale(d, c)
    ensures !Current(d)
  {
    if Current(d) {
      ExactlyOnceRecovery.NewestIsTop(d, c);
    }
  }

  lemma StaleIff(job: Job, h: Hyp, e: Env, c: Checkpoint)
    requires Covers(h) && EnvOk(job, h, e) && Quiet(e) && CompletedAnswers(e.dir, Some(c))
    ensures Accounts(Some(c), e.trace) <==> !Stale(e.dir, c)
    ensures Stale(e.dir, c) ==> !Current(e.dir)
  {
    assert UnfoldEnv(e);
    assert DoneFile(e.dir, c.id);
    var n := TopExists(e.dir, c.id);
    TopSelects(job, h, e, n);
    if Accounts(Some(c), e.trace) {
      forall m | IsTop(e.dir, m) ensures SamePositions(e.dir.files[m].data, c) {
        TopSelects(job, h, e, m);
        assert forall p: nat :: Resume(StoredIn(Some(c)), p) == Reads(e.trace, p);
      }
    } else {
      var p: nat :| Resume(StoredIn(Some(c)), p) != Reads(e.trace, p);
      assert Resume(e.dir.files[n].data.offsets, p) == Reads(e.trace, p);
    }
    if Stale(e.dir, c) {
      StaleIsBehind(e.dir, c);
    }
  }

  lemma TopSelects(job: Job, h: Hyp, e: Env, n: Id)
    requires Covers(h) && EnvOk(job, h, e) && Quiet(e) && IsTop(e.dir, n)
    ensures Selects(job, Some(e.dir.files[n].data), e.trace)
  {
    assert UnfoldEnv(e);
    SelectsIff(job, e.dir.files[n].data, e.trace);
  }

  /**
    A completed pointer behind a newer done file. In a run whose barriers carry every partition, a
    fallback to `c` is right if and only if the newest done file holds the positions of `c`, which
    can only fail while the pointer is behind.
   */
  lemma FallBackIff(job: Job, f: Bytes -> nat, h: Hyp, ls: seq<Label>, w: World, c: Checkpoint, w': World)
    requires Base(h) && Covers(h) && Emits(job, f) && Exec(job, h, Init(), ls) == Some(w) && ExactlyOnceAlong(job, h, ls)
    requires Step(job, h, w, FallBack(Some(c))) == Some(w')
    ensures ExactlyOnceIn(job, w') <==> !Stale(w.env.dir, c)
    ensures Stale(w.env.dir, c) ==> !Current(w.env.dir)
  {
    if ls != [] { AlongPrefix(job, h, ls, |ls| - 1); }
    AlongInv(job, f, h, ls);
    StepKeeps(job, h, w, FallBack(Some(c)));
    StaleIff(job, h, w.env, c);
    RestoreIff(job, f, h, w');
  }
}
