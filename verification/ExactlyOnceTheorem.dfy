/** The exactly-once theorem over whole runs. */
module ExactlyOnceTheorem {
  import opened Prelude
  import opened CheckpointFiles
  import opened ExactlyOnce
  import opened ExactlyOnceInvariant
  import opened ExactlyOnceRecovery
  import opened ExactlyOnceSteps
  import opened ExactlyOnceFinalize

  lemma SwapRun(job: Job, h: Hyp, w: World, r': Run)
    requires Inv(job, h, w) && w.proc.Running? && RunOk(job, h, w.env, r') && r'.fin == w.proc.r.fin
    ensures Inv(job, h, w.(proc := Running(r')))
  {
  }

  /** Every step keeps the invariant, as long as a run is launched only from the end of the visible execution. */
  lemma StepKeeps(job: Job, h: Hyp, w: World, l: Label)
    requires Base(h) && Inv(job, h, w) && (l.Launch? ==> LaunchOk(job, w)) && Step(job, h, w, l).Some?
    ensures Inv(job, h, Step(job, h, w, l).value)
  {
    var w' := Step(job, h, w, l).value;
    if Recovers(l) {
      RecoverKeeps(job, h, w, l, w');
    } else if Flows(l) {
      FlowCase(job, h, w, l, w'.proc.r);
    } else if Sinks(l) {
      SinkCase(job, h, w, l, w'.proc.r);
    } else {
      FinalizeKeeps(job, h, w, l, w');
    }
  }

  lemma FlowCase(job: Job, h: Hyp, w: World, l: Label, r': Run)
    requires Base(h) && Inv(job, h, w) && w.proc.Running? && MeetsRun(h, w.env.dir, w.proc.r, l) && Flow(job, w.proc.r, l) == Some(r')
    ensures Inv(job, h, w.(proc := Running(r')))
  {
    FlowStepKeeps(job, h, w.env, w.proc.r, l, r');
    SwapRun(job, h, w, r');
  }

  lemma SinkCase(job: Job, h: Hyp, w: World, l: Label, r': Run)
    requires Inv(job, h, w) && w.proc.Running? && Sinks(l) && Sink(w.proc.r, l) == Some(r')
    ensures Inv(job, h, w.(proc := Running(r')))
  {
    SinkStepKeeps(job, h, w.env, w.proc.r, l, r');
    SwapRun(job, h, w, r');
  }

  lemma InitInv(job: Job, h: Hyp)
    ensures Inv(job, h, Init())
  {
    assert EnvFacts(job, h, Init().env);
  }

  /** With every condition met, a restore point is the end of the visible execution. */
  lemma RestoreSelects(job: Job, h: Hyp, w: World)
    requires AllHold(h) && Inv(job, h, w)
    ensures LaunchOk(job, w)
  {
    if w.proc.Restoring? && w.proc.from.Some? {
      SelectsIff(job, w.proc.from.value, w.env.trace);
    }
  }

  lemma {:induction false} ExecKeeps(job: Job, h: Hyp, ls: seq<Label>)
    requires AllHold(h) && Exec(job, h, Init(), ls).Some?
    ensures Inv(job, h, Exec(job, h, Init(), ls).value)
  {
    if ls == [] {
      InitInv(job, h);
    } else {
      var w := Exec(job, h, Init(), ls[..|ls| - 1]).value;
      ExecKeeps(job, h, ls[..|ls| - 1]);
      RestoreSelects(job, h, w);
      StepKeeps(job, h, w, ls[|ls| - 1]);
    }
  }

  lemma InvExactlyOnce(job: Job, h: Hyp, w: World)
    requires Inv(job, h, w) && LaunchOk(job, w)
    ensures ExactlyOnceIn(job, w)
  {
    assert UnfoldEnv(w.env);
  }

  /** Under its conditions the protocol is exactly-once in every world of every run. */
  lemma ExactlyOnceHolds(h: Hyp)
    requires AllHold(h)
    ensures AlwaysExactlyOnce(h)
  {
    forall job: Job, ls: seq<Label> | Exec(job, h, Init(), ls).Some?
      ensures ExactlyOnceIn(job, Exec(job, h, Init(), ls).value)
    {
      ExecKeeps(job, h, ls);
      RestoreSelects(job, h, Exec(job, h, Init(), ls).value);
      InvExactlyOnce(job, h, Exec(job, h, Init(), ls).value);
    }
  }

  // ---- The code as it is written -----------------------------------------------------------

  /** No condition and no repair: `Step` is the code. */
  const AS_WRITTEN := Hyp(false, false, false, false, false, false, false, false)

  /** Every condition and no repair. */
  const CAREFUL := Hyp(true, true, true, true, true, true, false, false)

  /** Each step of the run `ls` meets the six conditions where it is taken. */
  ghost predicate MeetsAll(job: Job, ls: seq<Label>) {
    forall k :: 0 <= k < |ls| && Exec(job, AS_WRITTEN, Init(), ls[..k]).Some? ==>
      Meets(CAREFUL, Exec(job, AS_WRITTEN, Init(), ls[..k]).value, ls[k])
  }

  lemma {:induction false} CarefulRun(job: Job, ls: seq<Label>)
    requires Exec(job, AS_WRITTEN, Init(), ls).Some? && MeetsAll(job, ls)
    ensures Exec(job, CAREFUL, Init(), ls) == Exec(job, AS_WRITTEN, Init(), ls)
  {
    if ls != [] {
      var n := |ls| - 1;
      assert MeetsAll(job, ls[..n]) by {
        assert forall k :: 0 <= k < n ==> ls[..n][..k] == ls[..k];
      }
      CarefulRun(job, ls[..n]);
    }
  }

  /**
    The guarantee of the code as it is written: a run is exactly-once if none of its steps takes a
    further event after a fatal report, probes while a commit is in flight, injects a barrier while
    a partition has a position but has not been read in the run, falls back while the completed
    pointer is behind a newer done file, stamps a checkpoint no later than a stored one, or evicts
    a waiting snapshot. Crashes and failed writes may fall anywhere.
   */
  lemma AsWrittenExactlyOnce(job: Job, ls: seq<Label>)
    requires Exec(job, AS_WRITTEN, Init(), ls).Some? && MeetsAll(job, ls)
    ensures ExactlyOnceIn(job, Exec(job, AS_WRITTEN, Init(), ls).value)
  {
    CarefulRun(job, ls);
    ExactlyOnceHolds(CAREFUL);
  }
}
