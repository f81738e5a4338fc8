/** The coordinator's event channel while it is being shut down. */
module CoordinatorShutdown {
  // The coordinator's event channel while it is being shut down: any number of OnSinkPrepared calls,
  // the finalize worker and Stop, interleaved step by step. A critical section under the mutex is one
  // step; a channel send, a channel receive and a wait are steps of their own.

  import opened Prelude

  const QUEUE_SIZE := 16

  type CheckpointId = string

  /** Where a call of OnSinkPrepared is. `Sent` still holds its place in the send group. */
  datatype Call = Start | Checking | Sending | Sent | Returned

  datatype Worker = Idle | Got(id: CheckpointId) | Saving(id: CheckpointId) | Exited

  datatype Stopper = NotStarted | Halting | Closing | Stopped

  datatype State = State(
    calls: seq<Call>, worker: Worker, stopper: Stopper,
    pending: set<CheckpointId>, halted: bool, sendWg: nat, events: seq<CheckpointId>, closed: bool,
    // history: everything ever queued, how much of it the worker has received, and which places were committed
    queued: seq<CheckpointId>, received: nat, committed: seq<nat>,
    panicked: bool
  )

  ghost predicate Initial(ids: seq<CheckpointId>, s: State) {
    && |s.calls| == |ids| && (forall c :: 0 <= c < |ids| ==> s.calls[c] == Start)
    && s == State(s.calls, Idle, NotStarted, s.pending, false, 0, [], false, [], 0, [], false)
  }

  datatype Label =
    | Register(c: nat) | Check(c: nat) | Send(c: nat) | Leave(c: nat)
    | Receive | Begin | Commit | Fail | Exit
    | Halt | Close | Finish

  /** The steps of a call of OnSinkPrepared for checkpoint `ids[c]`. */
  function Prepare(ids: seq<CheckpointId>, s: State, l: Label): Option<State>
    requires l.Register? || l.Check? || l.Send? || l.Leave?
  {
    if l.c >= |s.calls| || l.c >= |ids| then None
    else
      match l
      case Register(c) =>
        if s.calls[c].Start? then Some(s.(calls := s.calls[c := Checking], pending := s.pending + {ids[c]})) else None
      case Check(c) =>
        if !s.calls[c].Checking? then None
        else if s.halted then Some(s.(calls := s.calls[c := Returned]))
        else Some(s.(calls := s.calls[c := Sending], sendWg := s.sendWg + 1))
      case Send(c) =>
        if !s.calls[c].Sending? then None
        else if s.closed then Some(s.(panicked := true))
        else if |s.events| < QUEUE_SIZE then
          Some(s.(calls := s.calls[c := Sent], events := s.events + [ids[c]], queued := s.queued + [ids[c]]))
        else None
      case Leave(c) =>
        if s.calls[c].Sent? && s.sendWg > 0 then Some(s.(calls := s.calls[c := Returned], sendWg := s.sendWg - 1)) else None
  }

  /** The finalize worker. `Begin` is the critical section at the start of finalize. */
  function Work(s: State, l: Label): Option<State>
    requires l.Receive? || l.Begin? || l.Commit? || l.Fail? || l.Exit?
  {
    match l
    case Receive =>
      if s.worker.Idle? && s.events != [] then
        Some(s.(worker := Got(s.events[0]), events := s.events[1..], received := s.received + 1))
      else None
    case Begin =>
      if !s.worker.Got? then None
      else if s.halted || s.worker.id !in s.pending then Some(s.(worker := Idle))
      else Some(s.(worker := Saving(s.worker.id), pending := s.pending - {s.worker.id}))
    case Commit =>
      if s.worker.Saving? && s.received > 0 then Some(s.(worker := Idle, committed := s.committed + [s.received - 1])) else None
    case Fail => if s.worker.Saving? then Some(s.(worker := Idle)) else None
    case Exit => if s.worker.Idle? && s.closed && s.events == [] then Some(s.(worker := Exited)) else None
  }

  /** Stop: refuse new sends, wait for those in flight, close the channel, wait for the worker. */
  function Stop(s: State, l: Label): Option<State>
    requires l.Halt? || l.Close? || l.Finish?
  {
    match l
    case Halt => if s.stopper.NotStarted? then Some(s.(stopper := Halting, halted := true)) else None
    case Close => if s.stopper.Halting? && s.sendWg == 0 then Some(s.(stopper := Closing, closed := true)) else None
    case Finish => if s.stopper.Closing? && s.worker.Exited? then Some(s.(stopper := Stopped)) else None
  }

  function Step(ids: seq<CheckpointId>, s: State, l: Label): Option<State> {
    if l.Register? || l.Check? || l.Send? || l.Leave? then Prepare(ids, s, l)
    else if l.Halt? || l.Close? || l.Finish? then Stop(s, l)
    else Work(s, l)
  }

  function Exec(ids: seq<CheckpointId>, s: State, ls: seq<Label>): Option<State> {
    if ls == [] then Some(s)
    else
      match Exec(ids, s, ls[..|ls| - 1])
      case None => None
      case Some(t) => Step(ids, t, ls[|ls| - 1])
  }

  // ---- The invariant -------------------------------------------------------------------

  predicate InFlight(c: Call) { c.Sending? || c.Sent? }

  function Flying(calls: seq<Call>): nat {
    if calls == [] then 0 else Flying(calls[..|calls| - 1]) + if InFlight(calls[|calls| - 1]) then 1 else 0
  }

  lemma {:induction false} FlyingUpdate(calls: seq<Call>, c: nat, x: Call)
    requires c < |calls|
    ensures Flying(calls[c := x]) == Flying(calls) - (if InFlight(calls[c]) then 1 else 0) + (if InFlight(x) then 1 else 0)
  {
    var n := |calls| - 1;
    if c == n {
      assert calls[c := x][..n] == calls[..n];
    } else {
      FlyingUpdate(calls[..n], c, x);
      assert calls[c := x][..n] == calls[..n][c := x];
    }
  }

  lemma {:induction false} FlyingSome(calls: seq<Call>, c: nat)
    requires c < |calls| && InFlight(calls[c])
    ensures Flying(calls) > 0
  {
    if c < |calls| - 1 {
      FlyingSome(calls[..|calls| - 1], c);
    }
  }

  /** The send group counts the calls that may still send, and the channel is closed only when there is none. */
  ghost predicate Guarded(s: State) {
    && s.sendWg == Flying(s.calls) && !s.panicked
    && (s.closed ==> s.halted && s.sendWg == 0)
    && (s.stopper.NotStarted? ==> !s.closed)
    && (s.stopper.Halting? ==> !s.closed && s.halted)
    && (s.stopper.Closing? || s.stopper.Stopped? ==> s.closed)
    && (s.worker.Exited? ==> s.closed && s.events == [])
  }

  /** The channel is a queue, and committed places increase. */
  ghost predicate InOrder(s: State) {
    && s.received <= |s.queued| && s.events == s.queued[s.received..] && |s.events| <= QUEUE_SIZE
    && (s.worker.Got? || s.worker.Saving? ==> s.received > 0 && s.queued[s.received - 1] == s.worker.id)
    && (forall i, j :: 0 <= i < j < |s.committed| ==> s.committed[i] < s.committed[j])
    && (forall i :: 0 <= i < |s.committed| ==> s.committed[i] < s.received)
    && (s.worker.Got? || s.worker.Saving? ==> forall i :: 0 <= i < |s.committed| ==> s.committed[i] < s.received - 1)
  }

  lemma PrepareGuarded(ids: seq<CheckpointId>, s: State, l: Label)
    requires Guarded(s) && (l.Register? || l.Check? || l.Send? || l.Leave?) && Prepare(ids, s, l).Some?
    ensures Guarded(Prepare(ids, s, l).value)
  {
    FlyingUpdate(s.calls, l.c, Prepare(ids, s, l).value.calls[l.c]);
    if InFlight(s.calls[l.c]) {
      FlyingSome(s.calls, l.c);
    }
    assert Prepare(ids, s, l).value.calls == s.calls[l.c := Prepare(ids, s, l).value.calls[l.c]];
  }

  lemma StepKeeps(ids: seq<CheckpointId>, s: State, l: Label)
    requires Guarded(s) && InOrder(s) && Step(ids, s, l).Some?
    ensures Guarded(Step(ids, s, l).value) && InOrder(Step(ids, s, l).value)
  {
    if l.Register? || l.Check? || l.Send? || l.Leave? {
      PrepareGuarded(ids, s, l);
      PrepareOrder(ids, s, l);
    } else if l.Halt? || l.Close? || l.Finish? {
      StopKeeps(s, l);
    } else {
      WorkKeeps(s, l);
    }
  }

  lemma PrepareOrder(ids: seq<CheckpointId>, s: State, l: Label)
    requires InOrder(s) && (l.Register? || l.Check? || l.Send? || l.Leave?) && Prepare(ids, s, l).Some?
    ensures InOrder(Prepare(ids, s, l).value)
  {
  }

  lemma StopKeeps(s: State, l: Label)
    requires Guarded(s) && InOrder(s) && (l.Halt? || l.Close? || l.Finish?) && Stop(s, l).Some?
    ensures Guarded(Stop(s, l).value) && InOrder(Stop(s, l).value)
  {
  }

  lemma WorkKeeps(s: State, l: Label)
    requires Guarded(s) && InOrder(s) && (l.Receive? || l.Begin? || l.Commit? || l.Fail? || l.Exit?) && Work(s, l).Some?
    ensures Guarded(Work(s, l).value) && InOrder(Work(s, l).value)
  {
  }

  lemma {:induction false} NoneFlying(calls: seq<Call>)
    requires forall c :: 0 <= c < |calls| ==> calls[c].Start?
    ensures Flying(calls) == 0
  {
    if calls != [] {
      NoneFlying(calls[..|calls| - 1]);
    }
  }

  lemma {:induction false} ExecKeeps(ids: seq<CheckpointId>, s: State, ls: seq<Label>)
    requires Initial(ids, s) && Exec(ids, s, ls).Some?
    ensures Guarded(Exec(ids, s, ls).value) && InOrder(Exec(ids, s, ls).value)
  {
    if ls == [] {
      NoneFlying(s.calls);
    } else {
      ExecKeeps(ids, s, ls[..|ls| - 1]);
      StepKeeps(ids, Exec(ids, s, ls[..|ls| - 1]).value, ls[|ls| - 1]);
    }
  }

  // ---- Safety ------------------------------------------------------------------------------

  /** Nothing is sent on the closed channel, each queued event commits at most once, and commits follow the queue. */
  lemma ShutdownSafe(ids: seq<CheckpointId>, s: State, ls: seq<Label>)
    requires Initial(ids, s) && Exec(ids, s, ls).Some?
    ensures var t := Exec(ids, s, ls).value;
            && !t.panicked
            && (forall i, j :: 0 <= i < j < |t.committed| ==> t.committed[i] < t.committed[j] < |t.queued|)
  {
    ExecKeeps(ids, s, ls);
  }

  /** After Halt the worker begins nothing: at most the checkpoint it is saving is still committed. */
  lemma {:induction false} NoneBeginsAfterHalt(ids: seq<CheckpointId>, s: State, ls: seq<Label>)
    requires s.halted && Exec(ids, s, ls).Some?
    ensures var t := Exec(ids, s, ls).value;
            && t.halted && |t.committed| + (if t.worker.Saving? then 1 else 0) <= |s.committed| + (if s.worker.Saving? then 1 else 0)
  {
    if ls != [] {
      NoneBeginsAfterHalt(ids, s, ls[..|ls| - 1]);
      HaltedStep(ids, Exec(ids, s, ls[..|ls| - 1]).value, ls[|ls| - 1]);
    }
  }

  lemma HaltedStep(ids: seq<CheckpointId>, s: State, l: Label)
    requires s.halted && Step(ids, s, l).Some?
    ensures var t := Step(ids, s, l).value;
            && t.halted && |t.committed| + (if t.worker.Saving? then 1 else 0) <= |s.committed| + (if s.worker.Saving? then 1 else 0)
  {
  }

  /** An open channel takes a send exactly while it holds fewer than 16 events. */
  lemma SixteenFit(ids: seq<CheckpointId>, s: State, c: nat)
    requires c < |s.calls| && c < |ids| && s.calls[c].Sending? && !s.closed
    ensures Step(ids, s, Send(c)).Some? <==> |s.events| < 16
  {
  }

  /** Some call has sent `id`. */
  ghost predicate SentBy(ids: seq<CheckpointId>, calls: seq<Call>, id: CheckpointId) {
    exists c :: 0 <= c < |ids| && c < |calls| && ids[c] == id && (calls[c].Sent? || calls[c].Returned?)
  }

  /** Every queued event is the one send of some call. */
  ghost predicate OncePerCall(ids: seq<CheckpointId>, s: State) {
    |s.calls| == |ids| && NoDup(s.queued) && forall i :: 0 <= i < |s.queued| ==> SentBy(ids, s.calls, s.queued[i])
  }

  lemma OnceKept(ids: seq<CheckpointId>, s: State, l: Label)
    requires NoDup(ids) && OncePerCall(ids, s) && Guarded(s) && Step(ids, s, l).Some?
    ensures OncePerCall(ids, Step(ids, s, l).value)
  {
    var s' := Step(ids, s, l).value;
    forall id | SentBy(ids, s.calls, id) ensures SentBy(ids, s'.calls, id) {
      var c :| 0 <= c < |ids| && ids[c] == id && (s.calls[c].Sent? || s.calls[c].Returned?);
      assert ids[c] == id && (s'.calls[c].Sent? || s'.calls[c].Returned?);
    }
    if l.Send? && s'.queued != s.queued {
      assert ids[l.c] == ids[l.c] && s'.calls[l.c].Sent?;
      assert SentBy(ids, s'.calls, ids[l.c]);
      NotYetSent(ids, s, l.c);
    }
  }

  lemma NotYetSent(ids: seq<CheckpointId>, s: State, c: nat)
    requires NoDup(ids) && OncePerCall(ids, s) && c < |ids| && s.calls[c].Sending?
    ensures ids[c] !in s.queued
  {
    forall i | 0 <= i < |s.queued| ensures s.queued[i] != ids[c] {
      assert SentBy(ids, s.calls, s.queued[i]);
    }
  }

  lemma {:induction false} OnceThroughout(ids: seq<CheckpointId>, s: State, ls: seq<Label>)
    requires NoDup(ids) && Initial(ids, s) && Exec(ids, s, ls).Some?
    ensures OncePerCall(ids, Exec(ids, s, ls).value)
  {
    if ls != [] {
      OnceThroughout(ids, s, ls[..|ls| - 1]);
      ExecKeeps(ids, s, ls[..|ls| - 1]);
      OnceKept(ids, Exec(ids, s, ls[..|ls| - 1]).value, ls[|ls| - 1]);
    }
  }

  /** No checkpoint has reached the sink commit twice. */
  ghost predicate CommitsOnce(s: State) {
    forall i, j :: 0 <= i < j < |s.committed| ==>
      s.committed[i] < |s.queued| && s.committed[j] < |s.queued| && s.queued[s.committed[i]] != s.queued[s.committed[j]]
  }

  ghost predicate AlwaysOnce(ids: seq<CheckpointId>) {
    forall s, ls :: Initial(ids, s) && Exec(ids, s, ls).Some? ==> CommitsOnce(Exec(ids, s, ls).value)
  }

  /** A state in which nothing is under way. */
  ghost predicate Quiet(ids: seq<CheckpointId>, s: State) {
    && |s.calls| == |ids| && s.worker.Idle? && !s.halted && !s.closed && s.events == [] && s.received == |s.queued| && s.sendWg == 0
  }

  /** A set of states that no step leaves. */
  ghost predicate Closed(ids: seq<CheckpointId>, reach: iset<State>) {
    forall t, l :: t in reach && Step(ids, t, l).Some? ==> Step(ids, t, l).value in reach
  }

  lemma Go(ids: seq<CheckpointId>, reach: iset<State>, t: State, l: Label) returns (t': State)
    requires Closed(ids, reach) && t in reach && Step(ids, t, l).Some?
    ensures t' in reach && t' == Step(ids, t, l).value
  {
    t' := Step(ids, t, l).value;
  }

  /** A call hands its checkpoint to the queue and returns. */
  lemma SendCall(ids: seq<CheckpointId>, reach: iset<State>, t: State, c: nat) returns (t': State)
    requires Closed(ids, reach) && t in reach && Quiet(ids, t) && c < |ids| && t.calls[c].Start?
    ensures t' in reach
    ensures t' == t.(calls := t.calls[c := Returned], pending := t.pending + {ids[c]}, events := [ids[c]], queued := t.queued + [ids[c]])
  {
    t' := Go(ids, reach, t, Register(c));
    t' := Go(ids, reach, t', Check(c));
    t' := Go(ids, reach, t', Send(c));
    t' := Go(ids, reach, t', Leave(c));
    assert t'.calls == t.calls[c := Returned];
  }

  /** The worker takes the one queued checkpoint and commits it. */
  lemma CommitCall(ids: seq<CheckpointId>, reach: iset<State>, t: State) returns (t': State)
    requires Closed(ids, reach) && t in reach && t.worker.Idle? && !t.halted && |t.events| == 1 && t.events[0] in t.pending
    ensures t' in reach
    ensures t' == t.(pending := t.pending - {t.events[0]}, events := [], received := t.received + 1, committed := t.committed + [t.received])
  {
    t' := Go(ids, reach, t, Receive);
    t' := Go(ids, reach, t', Begin);
    t' := Go(ids, reach, t', Commit);
    assert t'.events == [];
  }

  /** One call runs from its start to the commit, and nothing else moves. */
  lemma RunCall(ids: seq<CheckpointId>, reach: iset<State>, t: State, c: nat) returns (t': State)
    requires Closed(ids, reach) && t in reach && Quiet(ids, t) && c < |ids| && t.calls[c].Start?
    ensures t' in reach && Quiet(ids, t') && t'.calls == t.calls[c := Returned]
    ensures t'.queued == t.queued + [ids[c]] && t'.committed == t.committed + [|t.queued|]
  {
    t' := SendCall(ids, reach, t, c);
    t' := CommitCall(ids, reach, t');
  }

  ghost predicate Reached(ids: seq<CheckpointId>, s: State, t: State) {
    exists ls :: Exec(ids, s, ls) == Some(t)
  }

  ghost function Reachable(ids: seq<CheckpointId>, s: State): iset<State> {
    iset t | Reached(ids, s, t)
  }

  lemma ReachedClosed(ids: seq<CheckpointId>, s: State)
    ensures Closed(ids, Reachable(ids, s)) && s in Reachable(ids, s)
  {
    assert Exec(ids, s, []) == Some(s);
    forall t, l | Reached(ids, s, t) && Step(ids, t, l).Some? ensures Reached(ids, s, Step(ids, t, l).value) {
      var ls :| Exec(ids, s, ls) == Some(t);
      assert (ls + [l])[..|ls|] == ls;
      assert Exec(ids, s, ls + [l]) == Step(ids, t, l);
    }
  }

  /** Two calls for one checkpoint, one after the other, commit it twice. */
  lemma CommitsTwice(ids: seq<CheckpointId>, reach: iset<State>, s: State, i: nat, j: nat) returns (t: State)
    requires Closed(ids, reach) && s in reach && Initial(ids, s) && i < j < |ids| && ids[i] == ids[j]
    ensures t in reach && !CommitsOnce(t)
  {
    t := RunCall(ids, reach, s, i);
    t := RunCall(ids, reach, t, j);
    assert t.queued == [ids[i], ids[j]] && t.committed == [0, 1];
    assert t.queued[t.committed[0]] == t.queued[t.committed[1]];
  }

  function Starts(n: nat): (cs: seq<Call>)
    ensures |cs| == n && forall c :: 0 <= c < n ==> cs[c] == Start
  {
    if n == 0 then [] else Starts(n - 1) + [Start]
  }

  /** No checkpoint is committed twice, in every interleaving, if and only if each is prepared by one call. */
  lemma CommitsOnceIff(ids: seq<CheckpointId>)
    ensures AlwaysOnce(ids) <==> NoDup(ids)
  {
    if NoDup(ids) {
      forall s, ls | Initial(ids, s) && Exec(ids, s, ls).Some? ensures CommitsOnce(Exec(ids, s, ls).value) {
        ExecKeeps(ids, s, ls);
        OnceThroughout(ids, s, ls);
      }
    } else {
      var i, j :| 0 <= i < j < |ids| && ids[i] == ids[j];
      var s := State(Starts(|ids|), Idle, NotStarted, {}, false, 0, [], false, [], 0, [], false);
      ReachedClosed(ids, s);
      var t := CommitsTwice(ids, Reachable(ids, s), s, i, j);
      var ls :| Exec(ids, s, ls) == Some(t);
    }
  }

  // ---- Progress ---------------------------------------------------------------------------------

  predicate Settled(s: State) {
    s.stopper.Stopped? && s.worker.Exited? && forall c :: 0 <= c < |s.calls| ==> s.calls[c].Returned?
  }

  /** Once Stop has begun, some step is enabled until everything has returned. */
  lemma ShutdownProgress(ids: seq<CheckpointId>, s: State) returns (l: Label)
    requires Guarded(s) && InOrder(s) && |s.calls| == |ids| && !s.stopper.NotStarted? && !Settled(s)
    ensures Step(ids, s, l).Some?
  {
    if s.worker.Got? {
      l := Begin;
    } else if s.worker.Saving? {
      l := Commit;
    } else if s.worker.Idle? && s.events != [] {
      l := Receive;
    } else if c: nat :| c < |s.calls| && !s.calls[c].Returned? {
      if InFlight(s.calls[c]) {
        FlyingSome(s.calls, c);
      }
      l := match s.calls[c] case Start => Register(c) case Checking => Check(c) case Sending => Send(c) case _ => Leave(c);
    } else if s.stopper.Halting? {
      NoneInFlight(s.calls);
      l := Close;
    } else if s.worker.Idle? {
      l := Exit;
    } else {
      l := Finish;
    }
  }

  lemma {:induction false} NoneInFlight(calls: seq<Call>)
    requires forall c :: 0 <= c < |calls| ==> !InFlight(calls[c])
    ensures Flying(calls) == 0
  {
    if calls != [] {
      NoneInFlight(calls[..|calls| - 1]);
    }
  }

  function CallRank(c: Call): nat {
    match c case Start => 9 case Checking => 8 case Sending => 7 case Sent => 2 case Returned => 0
  }

  function Ranks(calls: seq<Call>): nat {
    if calls == [] then 0 else Ranks(calls[..|calls| - 1]) + CallRank(calls[|calls| - 1])
  }

  function Rank(s: State): nat {
    Ranks(s.calls) + 4 * |s.events|
    + (match s.worker case Exited => 0 case Idle => 1 case Saving(_) => 3 case Got(_) => 4)
    + (match s.stopper case Stopped => 0 case Closing => 1 case Halting => 2 case NotStarted => 3)
  }

  lemma {:induction false} RanksUpdate(calls: seq<Call>, c: nat, x: Call)
    requires c < |calls|
    ensures Ranks(calls[c := x]) == Ranks(calls) - CallRank(calls[c]) + CallRank(x)
  {
    var n := |calls| - 1;
    if c == n {
      assert calls[c := x][..n] == calls[..n];
    } else {
      RanksUpdate(calls[..n], c, x);
      assert calls[c := x][..n] == calls[..n][c := x];
    }
  }

  /** Every step brings the shutdown closer to its end. */
  lemma StepDecreases(ids: seq<CheckpointId>, s: State, l: Label)
    requires Guarded(s) && Step(ids, s, l).Some?
    ensures Rank(Step(ids, s, l).value) < Rank(s)
  {
    if l.Register? || l.Check? || l.Send? || l.Leave? {
      if l.Send? {
        FlyingSome(s.calls, l.c);
      }
      var s' := Step(ids, s, l).value;
      RanksUpdate(s.calls, l.c, s'.calls[l.c]);
      assert s'.calls == s.calls[l.c := s'.calls[l.c]];
    }
  }
}
