/** The checkpoint directory and the durable writes of a save. */
module CheckpointFiles {
  // The checkpoint directory: one file per checkpoint and two pointer files, rewritten by a
  // sequence of individually durable writes. `SaveWrite` and `Evict` are those writes, and a
  // crash may fall between any two of them.

  import opened Prelude

  datatype Suffix = Periodic | Shutdown | Final

  /** A checkpoint name `cp-<nonce>-<number><suffix>`. */
  datatype Id = Id(nonce: nat, number: nat, suffix: Suffix)

  /** `Legacy` is a file written without a status. */
  datatype Status = Legacy | Prepared | Completed

  datatype Checkpoint = Checkpoint(id: Id, time: int, status: Status, offsets: map<nat, nat>, state: Bytes) {
    predicate Done() { status.Completed? || status.Legacy? }
  }

  datatype File = Good(data: Checkpoint) | Corrupt

  datatype Dir = Dir(files: map<Id, File>, latest: Option<Id>, completed: Option<Id>)

  /** Every readable file carries the name it is stored under. */
  ghost predicate WellNamed(d: Dir) {
    forall i :: i in d.files && d.files[i].Good? ==> d.files[i].data.id == i
  }

  /** The last dash-separated part of the name read as a number; `-shutdown` and `-final` read as 0. */
  function CheckpointSequence(id: Id): int {
    if id.suffix.Periodic? then id.number else 0
  }

  /** The order in which a scan sorts checkpoints. */
  predicate Less(a: Checkpoint, b: Checkpoint) {
    if a.time == b.time then CheckpointSequence(a.id) < CheckpointSequence(b.id) else a.time < b.time
  }

  predicate Usable(d: Dir, completedOnly: bool, i: Id) {
    i in d.files && d.files[i].Good? && (completedOnly ==> d.files[i].data.Done())
  }

  ghost predicate Newest(d: Dir, completedOnly: bool, c: Checkpoint) {
    && Usable(d, completedOnly, c.id)
    && d.files[c.id].data == c
    && forall j :: Usable(d, completedOnly, j) ==> !Less(c, d.files[j].data)
  }

  /** `r` is a possible answer of a load that starts at pointer `ptr`. The answer is unique when the pointer is usable. */
  ghost predicate Answers(d: Dir, ptr: Option<Id>, completedOnly: bool, r: Option<Checkpoint>) {
    if ptr.Some? && Usable(d, completedOnly, ptr.value) then
      r == Some(d.files[ptr.value].data)
    else
      match r
      case None => forall i :: !Usable(d, completedOnly, i)
      case Some(c) => Newest(d, completedOnly, c)
  }

  ghost predicate LoadAnswers(d: Dir, r: Option<Checkpoint>) {
    Answers(d, d.latest, false, r)
  }

  ghost predicate CompletedAnswers(d: Dir, r: Option<Checkpoint>) {
    Answers(d, d.completed, true, r)
  }

  /** A file without a status answers a load of the latest completed checkpoint, a prepared one never does. */
  lemma LegacyAnswers(c: Checkpoint, r: Option<Checkpoint>)
    ensures CompletedAnswers(Dir(map[c.id := Good(c)], None, None), r) <==> r == if c.status.Prepared? then None else Some(c)
  {
    var d := Dir(map[c.id := Good(c)], None, None);
    assert Usable(d, true, c.id) <==> !c.status.Prepared?;
  }

  /** The number a scan reads from a name. */
  function NumberOf(id: Id): int {
    match id.suffix
    case Periodic => id.number
    case _ => 0
  }

  /** Without a usable pointer a load answers a readable file of the latest time and, of one time, of the highest number. */
  lemma LatestAnswers(d: Dir, c: Checkpoint, i: Id)
    requires LoadAnswers(d, Some(c)) && !(d.latest.Some? && d.latest.value in d.files && d.files[d.latest.value].Good?)
    requires i in d.files && d.files[i].Good?
    ensures c.id in d.files && d.files[c.id] == Good(c)
    ensures d.files[i].data.time < c.time || (d.files[i].data.time == c.time && NumberOf(d.files[i].data.id) <= NumberOf(c.id))
  {
    assert Usable(d, false, i);
  }

  /** A usable pointer decides the load, whatever else is stored. */
  lemma PointerAnswers(d: Dir, i: Id, r: Option<Checkpoint>)
    requires i in d.files && d.files[i].Good?
    ensures d.latest == Some(i) ==> (LoadAnswers(d, r) <==> r == Some(d.files[i].data))
    ensures d.completed == Some(i) && !d.files[i].data.status.Prepared? ==> (CompletedAnswers(d, r) <==> r == Some(d.files[i].data))
  {
  }

  // ---- The durable writes of a save ----------------------------------------

  datatype Stage = ToFile | ToLatest | ToCompleted | ToRetain

  function NextStage(c: Checkpoint, stage: Stage): Stage {
    match stage
    case ToFile => ToLatest
    case ToLatest => if c.status.Completed? then ToCompleted else ToRetain
    case ToCompleted => ToRetain
    case ToRetain => ToRetain
  }

  function SaveWrite(d: Dir, c: Checkpoint, stage: Stage): Dir {
    match stage
    case ToFile => d.(files := d.files[c.id := Good(c)])
    case ToLatest => d.(latest := Some(c.id))
    case ToCompleted => d.(completed := Some(c.id))
    case ToRetain => d
  }

  /** The done checkpoints other than `v` that a scan does not place before it. */
  ghost function Rivals(d: Dir, v: Checkpoint): set<Id> {
    set i | i in d.files && Usable(d, true, i) && i != v.id && !Less(d.files[i].data, v)
  }

  /** No done checkpoint sorts before `v`. */
  ghost predicate Oldest(d: Dir, v: Id) {
    Usable(d, true, v) && forall i :: Usable(d, true, i) ==> !Less(d.files[i].data, d.files[v].data)
  }

  /** Retention, when it is on, deletes `v` next: it is an oldest done checkpoint, and at least `retain` others are left. */
  ghost predicate Evictable(d: Dir, retain: nat, v: Id) {
    retain >= 1 && Oldest(d, v) && |Rivals(d, d.files[v].data)| >= retain
  }

  function Evict(d: Dir, v: Id): Dir {
    d.(files := d.files - {v})
  }

  /** One durable write of a save of `c`, or one deletion by the retention pass that ends it. */
  ghost predicate SaveStep(d: Dir, stage: Stage, d': Dir, stage': Stage, c: Checkpoint, retain: nat) {
    && stage' == NextStage(c, stage)
    && if stage.ToRetain? then Deletes(d, d', retain) else d' == SaveWrite(d, c, stage)
  }

  ghost predicate Deletes(d: Dir, d': Dir, retain: nat) {
    exists v :: Evictable(d, retain, v) && d' == Evict(d, v)
  }

  /** `ds` lists the durable states a save of `c` passes through; a crash leaves any prefix of such a list. */
  ghost predicate SaveStates(ds: seq<Dir>, stages: seq<Stage>, c: Checkpoint, retain: nat) {
    && |ds| >= 1 && |stages| == |ds| && stages[0] == ToFile
    && forall i :: 0 < i < |ds| ==> SaveStep(ds[i - 1], stages[i - 1], ds[i], stages[i], c, retain)
  }

  /** A checkpoint ranks the same as the file it replaces, if any. */
  ghost predicate SameRank(d: Dir, c: Checkpoint) {
    Usable(d, false, c.id) ==> d.files[c.id].data.time == c.time
  }

  // ---- Crash safety of Load ------------------------------------------------

  /** The directory once the file of `c` is written. */
  function WithFile(d0: Dir, c: Checkpoint): Dir { SaveWrite(d0, c, ToFile) }

  /** Whatever a save has deleted is outranked by a done file that is left. */
  ghost predicate Outranked(d1: Dir, d: Dir) {
    forall v :: Usable(d1, false, v) && v !in d.files ==> exists x :: Usable(d, true, x) && !Less(d.files[x].data, d1.files[v].data)
  }

  /** What a crash in the middle of a save can leave behind. */
  ghost predicate MidSave(d0: Dir, d: Dir, c: Checkpoint, stage: Stage) {
    && WellNamed(d)
    && (stage.ToFile? ==> d == d0)
    && (stage.ToLatest? ==> d == WithFile(d0, c))
    && (stage.ToCompleted? ==> c.id in d.files)
    && (stage.ToCompleted? || stage.ToRetain? ==>
          d.latest == Some(c.id) && d.files.Keys <= WithFile(d0, c).files.Keys && Outranked(WithFile(d0, c), d)
          && forall i :: i in d.files ==> d.files[i] == WithFile(d0, c).files[i])
  }

  lemma EvictionSpares(d: Dir, retain: nat, v: Id, c: Checkpoint)
    requires WellNamed(d) && Usable(d, false, c.id) && d.files[c.id].data == c
    requires Evictable(d, retain, v)
    requires retain >= 1 && c.Done() ==> |Rivals(d, c)| < retain
    ensures v != c.id
    ensures retain >= 1 && c.Done() ==> |Rivals(Evict(d, v), c)| < retain
  {
    assert Rivals(Evict(d, v), c) <= Rivals(d, c);
    SubsetSize(Rivals(Evict(d, v), c), Rivals(d, c));
  }

  lemma {:induction false} SubsetSize<T>(a: set<T>, b: set<T>)
    requires a <= b
    ensures |a| <= |b|
  {
    assert b == a + (b - a);
  }

  /** A victim of retention leaves a done file behind that it does not outrank. */
  lemma VictimOutranked(d: Dir, retain: nat, v: Id) returns (y: Id)
    requires WellNamed(d) && Evictable(d, retain, v)
    ensures y != v && Usable(Evict(d, v), true, y) && !Less(d.files[y].data, d.files[v].data)
  {
    assert Rivals(d, d.files[v].data) != {};
    y :| y in Rivals(d, d.files[v].data);
  }

  lemma StillOutranked(d1: Dir, d: Dir, retain: nat, v: Id)
    requires WellNamed(d) && Evictable(d, retain, v) && v in d1.files && d1.files[v] == d.files[v] && Outranked(d1, d)
    ensures Outranked(d1, Evict(d, v))
  {
    var d' := Evict(d, v);
    var y := VictimOutranked(d, retain, v);
    forall u | Usable(d1, false, u) && u !in d'.files ensures exists x :: Usable(d', true, x) && !Less(d'.files[x].data, d1.files[u].data) {
      if u != v {
        var x :| Usable(d, true, x) && !Less(d.files[x].data, d1.files[u].data);
        assert Usable(d', true, if x == v then y else x);
      }
    }
  }

  /** One deletion by retention keeps what `MidSave` says. */
  lemma MidEvict(d0: Dir, d: Dir, c: Checkpoint, retain: nat, v: Id)
    requires MidSave(d0, d, c, ToRetain) && Evictable(d, retain, v)
    ensures MidSave(d0, Evict(d, v), c, ToRetain)
  {
    StillOutranked(WithFile(d0, c), d, retain, v);
  }

  lemma {:induction false} SaveStatesMid(ds: seq<Dir>, stages: seq<Stage>, c: Checkpoint, retain: nat, n: nat)
    requires SaveStates(ds, stages, c, retain) && n < |ds| && WellNamed(ds[0])
    ensures MidSave(ds[0], ds[n], c, stages[n])
  {
    if n > 0 {
      SaveStatesMid(ds, stages, c, retain, n - 1);
      assert SaveStep(ds[n - 1], stages[n - 1], ds[n], stages[n], c, retain);
      if stages[n - 1].ToRetain? {
        assert Deletes(ds[n - 1], ds[n], retain);
        var v :| Evictable(ds[n - 1], retain, v) && ds[n] == Evict(ds[n - 1], v);
        MidEvict(ds[0], ds[n - 1], c, retain, v);
      }
    }
  }

  predicate Limited(c: Checkpoint, retain: nat) { c.Done() && retain >= 1 }

  /** With fewer than `retain` rivals the saved checkpoint is not deleted by its own save. */
  lemma {:induction false} SavedStays(ds: seq<Dir>, stages: seq<Stage>, c: Checkpoint, retain: nat, n: nat)
    requires SaveStates(ds, stages, c, retain) && n < |ds| && WellNamed(ds[0])
    requires Limited(c, retain) ==> |Rivals(WithFile(ds[0], c), c)| < retain
    ensures !stages[n].ToFile? ==> Stays(ds[n], c, retain)
  {
    if n > 0 {
      SavedStays(ds, stages, c, retain, n - 1);
      SaveStatesMid(ds, stages, c, retain, n - 1);
      assert SaveStep(ds[n - 1], stages[n - 1], ds[n], stages[n], c, retain);
      if stages[n - 1].ToRetain? {
        StaysStep(ds[0], ds[n - 1], ds[n], c, retain);
      } else if !stages[n - 1].ToFile? {
        StaysWrite(ds[n - 1], c, stages[n - 1], retain);
      }
    }
  }

  ghost predicate Stays(d: Dir, c: Checkpoint, retain: nat) {
    c.id in d.files && (Limited(c, retain) ==> |Rivals(d, c)| < retain)
  }

  lemma StaysWrite(d: Dir, c: Checkpoint, stage: Stage, retain: nat)
    requires Stays(d, c, retain) && !stage.ToFile?
    ensures Stays(SaveWrite(d, c, stage), c, retain)
  {
    assert Rivals(SaveWrite(d, c, stage), c) == Rivals(d, c);
  }

  lemma StaysStep(d0: Dir, d: Dir, d': Dir, c: Checkpoint, retain: nat)
    requires MidSave(d0, d, c, ToRetain) && Stays(d, c, retain) && Deletes(d, d', retain)
    ensures Stays(d', c, retain)
  {
    var v :| Evictable(d, retain, v) && d' == Evict(d, v);
    EvictionSpares(d, retain, v, c);
  }

  /** Before the save the latest pointer led to a readable file. */
  predicate PointerUsable(d: Dir) { d.latest.Some? && Usable(d, false, d.latest.value) }

  /** Apart from `c`, the file the latest pointer leads to outranks every other readable one. */
  ghost predicate LeadsTheRest(d: Dir, c: Checkpoint)
    requires PointerUsable(d)
  {
    && d.latest.value != c.id
    && forall j :: Usable(d, false, j) && j != c.id && j != d.latest.value ==> Less(d.files[j].data, d.files[d.latest.value].data)
  }

  /** Whether a save of `c` may change what Load answers to something other than `c`. */
  ghost predicate Harmless(d0: Dir, c: Checkpoint, retain: nat) {
    (Limited(c, retain) ==> |Rivals(WithFile(d0, c), c)| < retain) || !PointerUsable(d0) || LeadsTheRest(d0, c)
  }

  /** The file that leads the rest is deleted only if `c` then stays. */
  ghost predicate OneStays(d: Dir, c: Checkpoint, t: Id) {
    t in d.files || (c.id in d.files && Rivals(d, c) == {})
  }

  lemma EvictOneStays(d0: Dir, d: Dir, c: Checkpoint, retain: nat, v: Id)
    requires WellNamed(d0) && PointerUsable(d0) && LeadsTheRest(d0, c) && MidSave(d0, d, c, ToRetain) && Evictable(d, retain, v)
    requires OneStays(d, c, d0.latest.value)
    ensures OneStays(Evict(d, v), c, d0.latest.value)
  {
    var d', t := Evict(d, v), d0.latest.value;
    assert Rivals(d', c) <= Rivals(d, c);
    if v == t {
      LeaderDeleted(d0, d, c, retain);
    }
  }

  lemma LeaderDeleted(d0: Dir, d: Dir, c: Checkpoint, retain: nat)
    requires WellNamed(d0) && PointerUsable(d0) && LeadsTheRest(d0, c) && MidSave(d0, d, c, ToRetain) && Evictable(d, retain, d0.latest.value)
    ensures c.id in d.files && Rivals(Evict(d, d0.latest.value), c) == {}
  {
    var t := d0.latest.value;
    var y := VictimOutranked(d, retain, t);
    assert y != c.id ==> Usable(d0, false, y);
    assert y == c.id;
    forall j | j in Rivals(Evict(d, t), c) ensures false {
      assert Usable(d0, false, j);
    }
  }

  lemma {:induction false} LeaderStays(ds: seq<Dir>, stages: seq<Stage>, c: Checkpoint, retain: nat, n: nat)
    requires SaveStates(ds, stages, c, retain) && n < |ds| && WellNamed(ds[0]) && PointerUsable(ds[0]) && LeadsTheRest(ds[0], c)
    ensures OneStays(ds[n], c, ds[0].latest.value)
  {
    if n > 0 {
      LeaderStays(ds, stages, c, retain, n - 1);
      SaveStatesMid(ds, stages, c, retain, n - 1);
      var d, d' := ds[n - 1], ds[n];
      assert SaveStep(d, stages[n - 1], d', stages[n], c, retain);
      if stages[n - 1].ToRetain? {
        assert Deletes(d, d', retain);
        var v :| Evictable(d, retain, v) && d' == Evict(d, v);
        EvictOneStays(ds[0], d, c, retain, v);
      }
    }
  }

  /** Before its pointers are written, the new file only competes in a scan. */
  lemma LoadAtFile(d0: Dir, c: Checkpoint, r: Option<Checkpoint>)
    requires WellNamed(d0) && SameRank(d0, c) && LoadAnswers(WithFile(d0, c), r)
    ensures LoadAnswers(d0, r) || r == Some(c)
  {
    var d := WithFile(d0, c);
    assert Usable(d, false, c.id);
    if !(d0.latest.Some? && Usable(d, false, d0.latest.value)) && r.Some? && r != Some(c) {
      forall j | Usable(d0, false, j) ensures !Less(r.value, d0.files[j].data) {
        assert Usable(d, false, j);
      }
    }
  }

  /** A scan after retention deleted `c` finds what a scan before the save found. */
  lemma ScanAfter(d0: Dir, d: Dir, c: Checkpoint, r: Option<Checkpoint>)
    requires WellNamed(d0) && SameRank(d0, c) && MidSave(d0, d, c, ToRetain) && c.id !in d.files && !PointerUsable(d0) && LoadAnswers(d, r)
    ensures LoadAnswers(d0, r)
  {
    var d1 := WithFile(d0, c);
    assert Usable(d1, false, c.id);
    var x :| Usable(d, true, x) && !Less(d.files[x].data, d1.files[c.id].data);
    assert Usable(d, false, x);
    forall j | Usable(d0, false, j) ensures !Less(r.value, d0.files[j].data) {
      assert Usable(d1, false, j);
      if j in d.files {
        assert Usable(d, false, j);
      } else {
        var y :| Usable(d, true, y) && !Less(d.files[y].data, d1.files[j].data);
        assert Usable(d, false, y);
      }
    }
  }

  /** A scan after retention deleted `c` finds the file that leads the rest. */
  lemma ScanLeader(d0: Dir, d: Dir, c: Checkpoint, r: Option<Checkpoint>)
    requires WellNamed(d0) && MidSave(d0, d, c, ToRetain) && c.id !in d.files && PointerUsable(d0) && LeadsTheRest(d0, c)
    requires d0.latest.value in d.files && LoadAnswers(d, r)
    ensures LoadAnswers(d0, r)
  {
    var t := d0.latest.value;
    assert Usable(d, false, t);
    if r.value.id != t {
      assert Usable(d0, false, r.value.id);
    }
  }

  /** A harmless save: whatever crash point Load finds, it answers what it answered before, or `c`. */
  lemma LoadDuringSave(ds: seq<Dir>, stages: seq<Stage>, c: Checkpoint, retain: nat, n: nat, r: Option<Checkpoint>)
    requires SaveStates(ds, stages, c, retain) && n < |ds| && WellNamed(ds[0]) && SameRank(ds[0], c)
    requires Harmless(ds[0], c, retain) && LoadAnswers(ds[n], r)
    ensures LoadAnswers(ds[0], r) || r == Some(c)
  {
    SaveStatesMid(ds, stages, c, retain, n);
    var d0, d := ds[0], ds[n];
    if stages[n].ToLatest? {
      LoadAtFile(d0, c, r);
    } else if !stages[n].ToFile? {
      if c.id in d.files {
        assert Usable(d, false, c.id);
      } else if !PointerUsable(d0) {
        ScanAfter(d0, d, c, r);
      } else if LeadsTheRest(d0, c) {
        LeaderStays(ds, stages, c, retain, n);
        ScanLeader(d0, d, c, r);
      } else {
        SavedStays(ds, stages, c, retain, n);
        assert false;
      }
    }
  }

  lemma {:induction false} NewestAmong(d: Dir, s: set<Id>) returns (m: Id)
    requires s != {} && forall i :: i in s ==> i in d.files && d.files[i].Good?
    ensures m in s && forall j :: j in s ==> !Less(d.files[m].data, d.files[j].data)
    decreases |s|
  {
    var k :| k in s;
    m := k;
    var rest := s - {k};
    if rest != {} {
      var n := NewestAmong(d, rest);
      if Less(d.files[k].data, d.files[n].data) { m := n; }
    }
    assert forall j :: j in s ==> j == k || j in rest;
  }

  lemma ScanFinds(d: Dir, x: Id) returns (r: Checkpoint)
    requires WellNamed(d) && Usable(d, false, x)
    ensures Newest(d, false, r)
  {
    var s := set i | i in d.files && Usable(d, false, i);
    assert x in s;
    var m := NewestAmong(d, s);
    assert forall j :: Usable(d, false, j) ==> j in s;
    assert m in s;
    r := d.files[m].data;
  }

  /** Retention has deleted `c` and otherwise only what sorts before it. */
  ghost predicate DeletedUpTo(d0: Dir, d: Dir, c: Checkpoint) {
    && c.id !in d.files && d.latest == Some(c.id)
    && (forall i :: i in d.files ==> i in d0.files && d.files[i] == d0.files[i])
    && forall i :: i in d0.files && i != c.id && i !in d.files ==> d0.files[i].Good? && Less(d0.files[i].data, c)
  }

  /** What Load answers once retention has deleted `c`, when the old pointer did not lead the rest. */
  lemma ThirdAnswer(d0: Dir, d: Dir, c: Checkpoint, x: Id) returns (r: Checkpoint)
    requires WellNamed(d0) && PointerUsable(d0) && !LeadsTheRest(d0, c) && DeletedUpTo(d0, d, c)
    requires Usable(d, false, x) && !Less(d.files[x].data, c)
    ensures LoadAnswers(d, Some(r)) && !LoadAnswers(d0, Some(r)) && r != c
  {
    var t := d0.latest.value;
    r := ScanFinds(d, x);
    if r.id == t {
      var j :| Usable(d0, false, j) && j != c.id && j != t && !Less(d0.files[j].data, d0.files[t].data);
      assert Usable(d, false, j);
      r := d.files[j].data;
    }
  }

  /** The oldest of the done checkpoints that sort before `c`, or `c` itself. */
  lemma {:induction false} OldestUpTo(d: Dir, s: set<Id>, c: Checkpoint) returns (v: Id)
    requires Usable(d, true, c.id) && d.files[c.id].data == c
    requires forall i :: i in s ==> i in d.files && d.files[i].Good? && d.files[i].data.Done()
    ensures v == c.id || (v in s && Less(d.files[v].data, c))
    ensures Usable(d, true, v) && forall i :: i in s ==> !Less(d.files[i].data, d.files[v].data)
    decreases |s|
  {
    v := c.id;
    if s != {} {
      var k :| k in s;
      var rest := s - {k};
      v := OldestUpTo(d, rest, c);
      if Less(d.files[k].data, d.files[v].data) { v := k; }
      assert forall i :: i in s ==> i == k || i in rest;
    }
  }

  lemma NextVictim(d: Dir, c: Checkpoint, retain: nat) returns (v: Id)
    requires WellNamed(d) && Usable(d, true, c.id) && d.files[c.id].data == c && retain >= 1 && |Rivals(d, c)| >= retain
    ensures Evictable(d, retain, v) && (v == c.id || Less(d.files[v].data, c))
    ensures v != c.id ==> |Rivals(Evict(d, v), c)| >= retain
  {
    var s := set i | i in d.files && Usable(d, true, i);
    v := OldestUpTo(d, s, c);
    assert forall i :: Usable(d, true, i) ==> i in s;
    assert Oldest(d, v);
    assert Rivals(d, c) <= Rivals(d, d.files[v].data);
    SubsetSize(Rivals(d, c), Rivals(d, d.files[v].data));
    if v != c.id {
      assert Rivals(Evict(d, v), c) == Rivals(d, c);
    }
  }

  ghost predicate DeletesOnly(ds: seq<Dir>, retain: nat) {
    ds != [] && forall i :: 0 < i < |ds| ==> Deletes(ds[i - 1], ds[i], retain)
  }

  /** A checkpoint with at least `retain` rivals is deleted by the retention pass. */
  lemma {:induction false} DeletesUpTo(d: Dir, c: Checkpoint, retain: nat) returns (ds: seq<Dir>)
    requires WellNamed(d) && Usable(d, true, c.id) && d.files[c.id].data == c && d.latest == Some(c.id)
    requires retain >= 1 && |Rivals(d, c)| >= retain
    ensures DeletesOnly(ds, retain) && ds[0] == d && DeletedUpTo(d, ds[|ds| - 1], c)
    decreases |d.files|
  {
    var v := NextVictim(d, c, retain);
    var d' := Evict(d, v);
    assert Deletes(d, d', retain);
    if v == c.id {
      ds := [d, d'];
    } else {
      assert d'.files.Keys == d.files.Keys - {v};
      var rest := DeletesUpTo(d', c, retain);
      ds := [d] + rest;
    }
  }

  /** The writes of a save, followed by the deletions of its retention pass. */
  lemma WritesThenDeletes(d0: Dir, c: Checkpoint, retain: nat, rest: seq<Dir>) returns (ds: seq<Dir>, stages: seq<Stage>)
    requires c.Done() && DeletesOnly(rest, retain)
    requires var d := SaveWrite(WithFile(d0, c), c, ToLatest);
             rest[0] == if c.status.Completed? then SaveWrite(d, c, ToCompleted) else d
    ensures SaveStates(ds, stages, c, retain) && ds[0] == d0 && ds[|ds| - 1] == rest[|rest| - 1]
  {
    var d1 := WithFile(d0, c);
    var d2 := SaveWrite(d1, c, ToLatest);
    var writes := if c.status.Completed? then [d0, d1, d2] else [d0, d1];
    var done := seq(|rest|, i => ToRetain);
    ds := writes + rest;
    stages := (if c.status.Completed? then [ToFile, ToLatest, ToCompleted] else [ToFile, ToLatest]) + done;
    var k := |writes|;
    forall i | 0 < i < |ds| ensures SaveStep(ds[i - 1], stages[i - 1], ds[i], stages[i], c, retain) {
      if i > k {
        assert Deletes(rest[i - k - 1], rest[i - k], retain);
      }
    }
  }

  /** A save of `c` whose retention pass deletes `c`. */
  lemma SelfDeletingSave(d0: Dir, c: Checkpoint, retain: nat) returns (ds: seq<Dir>, stages: seq<Stage>)
    requires WellNamed(d0) && Limited(c, retain) && |Rivals(WithFile(d0, c), c)| >= retain
    ensures SaveStates(ds, stages, c, retain) && ds[0] == d0
    ensures DeletedUpTo(d0, ds[|ds| - 1], c)
  {
    var d1 := WithFile(d0, c);
    var d2 := SaveWrite(d1, c, ToLatest);
    var d3 := if c.status.Completed? then SaveWrite(d2, c, ToCompleted) else d2;
    assert Rivals(d3, c) == Rivals(d1, c);
    var rest := DeletesUpTo(d3, c, retain);
    ds, stages := WritesThenDeletes(d0, c, retain, rest);
  }

  /** A save that is not harmless has a crash point at which Load answers neither what it answered before nor `c`. */
  lemma HarmfulSave(d0: Dir, c: Checkpoint, retain: nat) returns (ds: seq<Dir>, stages: seq<Stage>, r: Option<Checkpoint>)
    requires WellNamed(d0) && !Harmless(d0, c, retain)
    ensures SaveStates(ds, stages, c, retain) && ds[0] == d0
    ensures LoadAnswers(ds[|ds| - 1], r) && !LoadAnswers(d0, r) && r != Some(c)
  {
    ds, stages := SelfDeletingSave(d0, c, retain);
    var d := ds[|ds| - 1];
    var rivals := Rivals(WithFile(d0, c), c);
    assert rivals != {};
    var x :| x in rivals;
    assert x in d0.files && x in d.files;
    var a := ThirdAnswer(d0, d, c, x);
    r := Some(a);
  }

  /** At every crash point of every save of `c` into `d0`, Load answers what it answered before, or `c`. */
  ghost predicate CrashSafe(d0: Dir, c: Checkpoint, retain: nat) {
    forall ds: seq<Dir>, stages: seq<Stage>, n: nat, r: Option<Checkpoint> ::
      SaveStates(ds, stages, c, retain) && n < |ds| && ds[0] == d0 && LoadAnswers(ds[n], r) ==> LoadAnswers(d0, r) || r == Some(c)
  }

  /**
    The exact condition for crash safety of Load: a save is crash-safe if and only if fewer than
    `retain` done files do not sort before `c` (a prepared checkpoint needs nothing), or the
    latest pointer was unusable, or the file it leads to outranks everything but `c`.
   */
  lemma CrashSafeIff(d0: Dir, c: Checkpoint, retain: nat)
    requires WellNamed(d0) && SameRank(d0, c)
    ensures CrashSafe(d0, c, retain) <==> Harmless(d0, c, retain)
  {
    if Harmless(d0, c, retain) {
      forall ds: seq<Dir>, stages: seq<Stage>, n: nat, r: Option<Checkpoint> |
        SaveStates(ds, stages, c, retain) && n < |ds| && ds[0] == d0 && LoadAnswers(ds[n], r)
        ensures LoadAnswers(d0, r) || r == Some(c)
      {
        LoadDuringSave(ds, stages, c, retain, n, r);
      }
    } else {
      var ds, stages, r := HarmfulSave(d0, c, retain);
      var n := |ds| - 1;
      assert LoadAnswers(ds[n], r);
    }
  }

  /**
    A restored savepoint: done checkpoints of times 5 and 9, the latest pointer at the older one,
    two checkpoints retained. A save stamped 1 deletes itself, and Load answers the newer one.
   */
  lemma RestoredSavepoint(a: Checkpoint, b: Checkpoint, c: Checkpoint) returns (ds: seq<Dir>, stages: seq<Stage>)
    requires a.id != b.id && a.id != c.id && b.id != c.id && a.Done() && b.Done() && c.Done() && a.time == 5 && b.time == 9 && c.time == 1
    ensures SaveStates(ds, stages, c, 2) && ds[0] == Dir(map[a.id := Good(a), b.id := Good(b)], Some(a.id), Some(a.id))
    ensures LoadAnswers(ds[|ds| - 1], Some(b)) && !LoadAnswers(ds[0], Some(b)) && b != c
  {
    var d0 := Dir(map[a.id := Good(a), b.id := Good(b)], Some(a.id), Some(a.id));
    assert Rivals(WithFile(d0, c), c) == {a.id, b.id};
    ds, stages := SelfDeletingSave(d0, c, 2);
    var d := ds[|ds| - 1];
    assert a.id in d.files && b.id in d.files;
    assert Newest(d, false, b);
    assert Usable(d0, false, a.id);
  }

  /** Loading the latest completed checkpoint never yields a prepared one, whatever state the directory is in. */
  lemma CompletedIsDone(d: Dir, r: Option<Checkpoint>)
    requires CompletedAnswers(d, r) && r.Some?
    ensures r.value.Done()
  {
  }
}
