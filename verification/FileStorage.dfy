/** The file storage object and its durable writes. */
module FileStorageModel {
  import opened Prelude
  import opened CheckpointFiles

  /** `s` lists the readable checkpoints of `d` (only the done ones if asked) in scan order. */
  ghost predicate IsScan(d: Dir, completedOnly: bool, s: seq<Checkpoint>) {
    && (forall i :: 0 <= i < |s| ==> Usable(d, completedOnly, s[i].id) && d.files[s[i].id].data == s[i])
    && DistinctIds(s)
    && Ordered(s)
    && (forall id :: Usable(d, completedOnly, id) ==> d.files[id].data in s)
  }

  function Ids(s: seq<Checkpoint>): set<Id> {
    set i | 0 <= i < |s| :: s[i].id
  }

  /** The number of checkpoints of `s` that sort after `c`. */
  function Above(s: seq<Checkpoint>, c: Checkpoint): nat {
    if s == [] then 0 else (if Less(c, s[0]) then 1 else 0) + Above(s[1..], c)
  }

  predicate DistinctRanks(s: seq<Checkpoint>) {
    forall i, j :: 0 <= i < j < |s| ==> Less(s[i], s[j]) || Less(s[j], s[i])
  }

  lemma {:induction false} AboveInScan(s: seq<Checkpoint>, i: nat)
    requires i < |s| && DistinctRanks(s) && Ordered(s)
    ensures Above(s, s[i]) == |s| - 1 - i
  {
    if i > 0 {
      AboveInScan(s[1..], i - 1);
    } else {
      AllAbove(s[1..], s[0]);
    }
  }

  lemma {:induction false} AllAbove(s: seq<Checkpoint>, c: Checkpoint)
    requires forall i :: 0 <= i < |s| ==> Less(c, s[i])
    ensures Above(s, c) == |s|
  {
    if s != [] { AllAbove(s[1..], c); }
  }

  /** The files left once retention has trimmed the done list `s` to its last `retain` entries. */
  function Trimmed(d: Dir, s: seq<Checkpoint>, retain: nat): Dir {
    if retain < 1 || |s| <= retain then d else Without(d, s[..|s| - retain])
  }

  /**
    Exactly when a done checkpoint outlives retention: fewer than `retain` done checkpoints sort
    after it. Re-saving an old timestamp, as restoring a savepoint does, can fail this at once.
   */
  lemma SurvivalIff(d: Dir, s: seq<Checkpoint>, retain: nat, i: nat)
    requires IsScan(d, true, s) && DistinctRanks(s) && i < |s|
    ensures s[i].id in Trimmed(d, s, retain).files <==> retain < 1 || Above(s, s[i]) < retain
  {
    AboveInScan(s, i);
    if 1 <= retain < |s| {
      var gone := s[..|s| - retain];
      if i < |s| - retain {
        assert gone[i].id in Ids(gone);
      } else {
        assert s[i].id !in Ids(gone);
      }
    }
  }

  /** Retention never touches a checkpoint that is not done. */
  lemma PreparedSurvives(d: Dir, s: seq<Checkpoint>, retain: nat, i: Id)
    requires WellNamed(d) && IsScan(d, true, s) && Usable(d, false, i) && !d.files[i].data.Done()
    ensures i in Trimmed(d, s, retain).files && Trimmed(d, s, retain).files[i] == d.files[i]
  {
    if 1 <= retain < |s| {
      var gone := s[..|s| - retain];
      forall j | 0 <= j < |gone| ensures gone[j].id != i {
        assert gone[j] == s[j] && Usable(d, true, s[j].id);
      }
    }
  }

  /** After a save, Load answers the saved checkpoint if and only if it is prepared or outlives the save's own retention pass. */
  lemma LoadAfterSaveIff(d: Dir, c: Checkpoint, s: seq<Checkpoint>, retain: nat)
    requires WellNamed(d) && !c.status.Legacy? && IsScan(AllWrites(d, c), true, s) && DistinctRanks(s)
    ensures LoadAnswers(Trimmed(AllWrites(d, c), s, retain), Some(c)) <==> !c.Done() || retain < 1 || Above(s, c) < retain
  {
    var w := AllWrites(d, c);
    Written(d, c);
    LoadIfKept(w, c, s, retain);
    if c.Done() {
      SavedSurvival(w, c, s, retain);
    } else {
      PreparedSurvives(w, s, retain, c.id);
    }
  }

  /**
    A save of a checkpoint that is done, or has no status, stores it as completed, and a load of the latest
    completed checkpoint then answers it if and only if it outlives the save's own retention pass.
   */
  lemma CompletedAfterSaveIff(d: Dir, c: Checkpoint, s: seq<Checkpoint>, retain: nat)
    requires WellNamed(d) && !c.status.Prepared? && IsScan(AllWrites(d, Stored(c)), true, s) && DistinctRanks(s)
    ensures CompletedAnswers(Trimmed(AllWrites(d, Stored(c)), s, retain), Some(c.(status := Completed)))
        <==> retain < 1 || Above(s, c.(status := Completed)) < retain
  {
    var w, x := AllWrites(d, Stored(c)), Stored(c);
    assert x == c.(status := Completed);
    Written(d, x);
    SavedSurvival(w, x, s, retain);
    assert Usable(w, true, x.id) && w.completed == Some(x.id);
  }

  /** A save of a prepared checkpoint leaves the completed pointer alone. */
  lemma PreparedWrites(d: Dir, c: Checkpoint)
    requires c.status.Prepared?
    ensures AllWrites(d, Stored(c)) == Dir(d.files[c.id := Good(c)], Some(c.id), d.completed)
  {
  }

  lemma Written(d: Dir, c: Checkpoint)
    requires WellNamed(d)
    ensures var w := AllWrites(d, c);
            WellNamed(w) && w.latest == Some(c.id) && Usable(w, false, c.id) && w.files[c.id] == Good(c)
  {
  }

  /** The pointer leads to `c`: Load answers it exactly when its file is kept. */
  lemma LoadIfKept(w: Dir, c: Checkpoint, s: seq<Checkpoint>, retain: nat)
    requires w.latest == Some(c.id) && c.id in w.files && w.files[c.id] == Good(c)
    ensures LoadAnswers(Trimmed(w, s, retain), Some(c)) <==> c.id in Trimmed(w, s, retain).files
  {
    var t := Trimmed(w, s, retain);
    assert c.id in t.files ==> t.files[c.id] == w.files[c.id];
  }

  lemma SavedSurvival(w: Dir, c: Checkpoint, s: seq<Checkpoint>, retain: nat)
    requires IsScan(w, true, s) && DistinctRanks(s) && Usable(w, true, c.id) && w.files[c.id] == Good(c)
    ensures c.id in Trimmed(w, s, retain).files <==> retain < 1 || Above(s, c) < retain
  {
    assert c in s;
    var i :| 0 <= i < |s| && s[i] == c;
    SurvivalIff(w, s, retain, i);
  }

  /** When every other done checkpoint sorts before it, a done checkpoint survives every retention pass. */
  lemma NewestSurvives(d: Dir, s: seq<Checkpoint>, retain: nat, k: nat)
    requires IsScan(d, true, s) && k < |s|
    requires forall i :: 0 <= i < |s| && i != k ==> Less(s[i], s[k])
    ensures s[k].id in Trimmed(d, s, retain).files && Trimmed(d, s, retain).files[s[k].id] == d.files[s[k].id]
  {
    var n := |s| - 1;
    if k < n {
      assert false;
    }
    if 1 <= retain < |s| {
      assert s[n].id !in Ids(s[..|s| - retain]);
    }
  }

  /** A savepoint restored under its old timestamp into a full directory is deleted by the save that restores it. */
  lemma SavepointCanVanish()
    ensures exists d: Dir, s: seq<Checkpoint>, retain: nat, c: Checkpoint ::
              && c.Done() && IsScan(SaveWrite(d, c, ToFile), true, s) && DistinctRanks(s) && retain >= 1
              && c.id !in Trimmed(SaveWrite(d, c, ToFile), s, retain).files
  {
    var stale := Checkpoint(Id(1, 1, Periodic), 5, Completed, map[], []);
    var recent := Checkpoint(Id(2, 1, Periodic), 9, Completed, map[], []);
    var d := Dir(map[recent.id := Good(recent)], Some(recent.id), Some(recent.id));
    var after := SaveWrite(d, stale, ToFile);
    var s := [stale, recent];
    assert s[0] == stale && s[1] == recent;
    assert forall id :: Usable(after, true, id) ==> id == stale.id || id == recent.id;
    assert IsScan(after, true, s);
    assert s[..1][0].id == stale.id;
    assert stale.id in Ids(s[..1]);
    assert stale.id !in Trimmed(after, s, 1).files;
  }

  predicate Ordered(s: seq<Checkpoint>) {
    forall i, j :: 0 <= i < j < |s| ==> !Less(s[j], s[i])
  }

  predicate DistinctIds(s: seq<Checkpoint>) {
    forall i, j :: 0 <= i < j < |s| ==> s[i].id != s[j].id
  }

  function Insert(s: seq<Checkpoint>, c: Checkpoint): (r: seq<Checkpoint>)
    ensures forall x :: x in r <==> x in s || x == c
  {
    if s == [] || Less(c, s[0]) then [c] + s
    else
      assert s == [s[0]] + s[1..];
      [s[0]] + Insert(s[1..], c)
  }

  lemma {:induction false} InsertKeeps(s: seq<Checkpoint>, c: Checkpoint)
    requires Ordered(s) && DistinctIds(s) && forall i :: 0 <= i < |s| ==> s[i].id != c.id
    ensures Ordered(Insert(s, c)) && DistinctIds(Insert(s, c))
  {
    if s == [] {
    } else if Less(c, s[0]) {
      assert forall j :: 0 < j < |s| ==> !Less(s[j], s[0]);
    } else {
      InsertKeeps(s[1..], c);
      var rest := Insert(s[1..], c);
      forall i | 0 <= i < |rest| ensures !Less(rest[i], s[0]) && rest[i].id != s[0].id {
        assert rest[i] in rest;
      }
      assert Insert(s, c) == [s[0]] + rest;
    }
  }

  class FileStorage {
    var dir: Dir
    const retain: nat

    constructor (dir: Dir, retain: nat)
      requires WellNamed(dir)
      ensures this.dir == dir && this.retain == retain
    {
      this.dir := dir;
      this.retain := retain;
    }

    ghost predicate Valid()
      reads this
    {
      WellNamed(dir)
    }

    /** Reads every readable file and sorts it by timestamp, then by checkpoint sequence. */
    method Scan() returns (out: seq<Checkpoint>)
      requires Valid()
      ensures IsScan(dir, false, out)
    {
      out := [];
      var rest := dir.files.Keys;
      while rest != {}
        invariant rest <= dir.files.Keys
        invariant Ordered(out) && DistinctIds(out)
        invariant forall i :: 0 <= i < |out| ==> Usable(dir, false, out[i].id) && dir.files[out[i].id].data == out[i] && out[i].id !in rest
        invariant forall id :: Usable(dir, false, id) && id !in rest ==> dir.files[id].data in out
        decreases rest
      {
        var id :| id in rest;
        rest := rest - {id};
        if dir.files[id].Good? {
          var c := dir.files[id].data;
          ghost var before := out;
          InsertKeeps(out, c);
          out := Insert(out, c);
          assert forall i :: 0 <= i < |out| ==> out[i] in before || out[i] == c;
        }
      }
    }

    /** Load (any status) and LoadLatestCompleted: the pointer if it is usable, else the newest file, repairing the pointer. */
    method LoadPointer(completedOnly: bool) returns (r: Option<Checkpoint>)
      requires Valid()
      modifies this`dir
      ensures Valid()
      ensures Answers(old(dir), if completedOnly then old(dir.completed) else old(dir.latest), completedOnly, r)
      ensures dir.files == old(dir.files)
      ensures completedOnly ==> dir.latest == old(dir.latest)
      ensures !completedOnly ==> dir.completed == old(dir.completed)
      ensures r.Some? ==> (if completedOnly then dir.completed else dir.latest) == Some(r.value.id)
      ensures Answers(dir, if completedOnly then dir.completed else dir.latest, completedOnly, r)
    {
      var ptr := if completedOnly then dir.completed else dir.latest;
      if ptr.Some? && Usable(dir, completedOnly, ptr.value) {
        r := Some(dir.files[ptr.value].data);
        return;
      }
      var s := Scan();
      var i := |s|;
      while i > 0
        invariant 0 <= i <= |s|
        invariant completedOnly ==> forall j :: i <= j < |s| ==> !s[j].Done()
        invariant !completedOnly ==> i == |s|
        invariant dir == old(dir)
      {
        i := i - 1;
        if !completedOnly || s[i].Done() {
          r := Some(s[i]);
          forall id | Usable(dir, completedOnly, id) ensures !Less(s[i], dir.files[id].data) {
            assert Usable(dir, false, id);
            var k :| 0 <= k < |s| && s[k] == dir.files[id].data;
            assert k <= i;
          }
          assert Newest(dir, completedOnly, s[i]);
          dir := if completedOnly then dir.(completed := Some(s[i].id)) else dir.(latest := Some(s[i].id));
          return;
        }
      }
      r := None;
      forall id ensures !Usable(dir, completedOnly, id) {
        assert Usable(dir, false, id) ==> dir.files[id].data in s;
      }
    }

    /** Deletes the oldest done checkpoints until at most `retain` are left; prepared ones stay. */
    method EnforceRetention() returns (ghost victims: seq<Dir>, ghost done: seq<Checkpoint>)
      requires Valid()
      modifies this`dir
      ensures Valid()
      ensures IsScan(old(dir), true, done) && dir == Trimmed(old(dir), done, retain)
      ensures |victims| >= 1 && victims[0] == old(dir) && victims[|victims| - 1] == dir
      ensures forall i :: 0 < i < |victims| ==> Deletes(victims[i - 1], victims[i], retain)
    {
      var all := Scan();
      var completed := DoneOnly(all);
      DoneScan(dir, all, completed);
      done := completed;
      if retain < 1 {
        return [dir], done;
      }
      victims := DeleteOldest(completed);
    }

    method DeleteOldest(done: seq<Checkpoint>) returns (ghost victims: seq<Dir>)
      requires Valid() && IsScan(dir, true, done) && retain >= 1
      modifies this`dir
      ensures Valid() && dir == Trimmed(old(dir), done, retain)
      ensures |victims| >= 1 && victims[0] == old(dir) && victims[|victims| - 1] == dir
      ensures forall i :: 0 < i < |victims| ==> Deletes(victims[i - 1], victims[i], retain)
    {
      var completed := done;
      ghost var gone := 0;
      assert Without(dir, done[..0]) == dir;
      while |completed| > retain
        invariant gone + |completed| == |done| && completed == done[gone..]
        invariant gone > 0 ==> |completed| >= retain
        invariant dir == Without(old(dir), done[..gone])
        decreases |completed|
      {
        VictimEvictable(old(dir), retain, done, gone);
        dir := Evict(dir, completed[0].id);
        completed := completed[1..];
        gone := gone + 1;
      }
      victims := Deletions(old(dir), done, gone, retain);
    }

    /**
      Save: a checkpoint without a status is stored as completed. The durable states passed
      through are those of `SaveStates`, so `CrashSafeIff` speaks about every crash.
     */
    method Save(data: Checkpoint) returns (ghost ds: seq<Dir>, ghost stages: seq<Stage>, ghost done: seq<Checkpoint>)
      requires Valid()
      modifies this`dir
      ensures Valid()
      ensures SaveStates(ds, stages, Stored(data), retain) && ds[0] == old(dir) && ds[|ds| - 1] == dir
      ensures IsScan(AllWrites(old(dir), Stored(data)), true, done)
      ensures dir == Trimmed(AllWrites(old(dir), Stored(data)), done, retain)
    {
      var c := if data.status.Legacy? then data.(status := Completed) else data;
      ds, stages := [dir], [ToFile];
      dir := SaveWrite(dir, c, ToFile);
      ds, stages := ds + [dir], stages + [ToLatest];
      dir := SaveWrite(dir, c, ToLatest);
      ds, stages := ds + [dir], stages + [NextStage(c, ToLatest)];
      if c.status.Completed? {
        dir := SaveWrite(dir, c, ToCompleted);
        ds, stages := ds + [dir], stages + [ToRetain];
      }
      assert SaveStates(ds, stages, c, retain);
      ghost var victims;
      victims, done := EnforceRetention();
      ds, stages := AppendDeletions(ds, stages, victims, c, retain);
    }

    /** UpdateStatus: re-reads the checkpoint and saves it under the new status. */
    method UpdateStatus(id: Id, status: Status) returns (ok: bool, ghost ds: seq<Dir>, ghost stages: seq<Stage>)
      requires Valid()
      modifies this`dir
      ensures Valid()
      ensures ok <==> Usable(old(dir), false, id)
      ensures !ok ==> dir == old(dir)
      ensures ok ==> SaveStates(ds, stages, Stored(old(dir).files[id].data.(status := status)), retain)
      ensures ok ==> ds[0] == old(dir) && ds[|ds| - 1] == dir
    {
      if id in dir.files && dir.files[id].Good? {
        ghost var done;
        ds, stages, done := Save(dir.files[id].data.(status := status));
        ok := true;
      } else {
        ok, ds, stages := false, [dir], [ToFile];
      }
    }
  }

  function Stored(c: Checkpoint): Checkpoint {
    if c.status.Legacy? then c.(status := Completed) else c
  }

  function AllWrites(d: Dir, c: Checkpoint): Dir {
    var d1 := SaveWrite(SaveWrite(d, c, ToFile), c, ToLatest);
    if c.status.Completed? then SaveWrite(d1, c, ToCompleted) else d1
  }

  lemma IdsAppend(s: seq<Checkpoint>, c: Checkpoint)
    ensures Ids(s + [c]) == Ids(s) + {c.id}
  {
    var t := s + [c];
    assert t[|s|] == c;
    forall id | id in Ids(s) ensures id in Ids(t) {
      var i :| 0 <= i < |s| && s[i].id == id;
      assert t[i].id == id;
    }
  }

  /** The directory after the files of `s` have been deleted. */
  function Without(d: Dir, s: seq<Checkpoint>): Dir {
    d.(files := d.files - Ids(s))
  }

  lemma DoneScan(d: Dir, all: seq<Checkpoint>, done: seq<Checkpoint>)
    requires IsScan(d, false, all) && done == DoneOnly(all)
    ensures IsScan(d, true, done)
  {
    DoneOnlyKeeps(all);
    forall i | 0 <= i < |done| ensures Usable(d, true, done[i].id) && d.files[done[i].id].data == done[i] {
      assert done[i] in done;
    }
    forall id | Usable(d, true, id) ensures d.files[id].data in done {
      assert Usable(d, false, id);
    }
  }

  function DoneOnly(s: seq<Checkpoint>): (r: seq<Checkpoint>)
    ensures forall x :: x in r <==> x in s && x.Done()
  {
    if s == [] then []
    else
      assert s == [s[0]] + s[1..];
      (if s[0].Done() then [s[0]] else []) + DoneOnly(s[1..])
  }

  lemma {:induction false} DoneOnlyKeeps(s: seq<Checkpoint>)
    requires Ordered(s) && DistinctIds(s)
    ensures Ordered(DoneOnly(s)) && DistinctIds(DoneOnly(s))
  {
    if s != [] {
      DoneOnlyKeeps(s[1..]);
      var rest := DoneOnly(s[1..]);
      forall i | 0 <= i < |rest| ensures !Less(rest[i], s[0]) && rest[i].id != s[0].id {
        assert rest[i] in s[1..];
        var j :| 0 <= j < |s[1..]| && s[1..][j] == rest[i];
        assert s[j + 1] == rest[i];
      }
      assert s[0].Done() ==> DoneOnly(s) == [s[0]] + rest;
    }
  }

  lemma VictimEvictable(d: Dir, retain: nat, done: seq<Checkpoint>, gone: nat)
    requires WellNamed(d) && IsScan(d, true, done) && gone < |done| && |done| - gone > retain >= 1
    ensures Evictable(Without(d, done[..gone]), retain, done[gone].id)
    ensures Evict(Without(d, done[..gone]), done[gone].id) == Without(d, done[..gone + 1])
  {
    var now := Without(d, done[..gone]);
    var ids := seq(|done| - gone - 1, i requires 0 <= i < |done| - gone - 1 => done[gone + 1 + i].id);
    var rivals := Rivals(now, done[gone]);
    forall i | gone <= i < |done| ensures Usable(now, true, done[i].id) && now.files[done[i].id].data == done[i] {
      assert done[i].id !in Ids(done[..gone]);
    }
    forall i | 0 <= i < |ids| ensures ids[i] in rivals {
      assert !Less(done[gone + 1 + i], done[gone]);
    }
    DistinctWithin(ids, rivals);
    assert done[..gone + 1] == done[..gone] + [done[gone]];
    IdsAppend(done[..gone], done[gone]);
  }

  lemma Deletions(d: Dir, done: seq<Checkpoint>, gone: nat, retain: nat) returns (victims: seq<Dir>)
    requires WellNamed(d) && IsScan(d, true, done) && gone <= |done| && (gone > 0 ==> |done| - gone >= retain >= 1)
    ensures |victims| == gone + 1 && victims[0] == d && victims[gone] == Without(d, done[..gone])
    ensures forall i :: 0 < i < |victims| ==> Deletes(victims[i - 1], victims[i], retain)
  {
    victims := seq(gone + 1, i requires 0 <= i <= gone => Without(d, done[..i]));
    assert victims[0] == d;
    forall i | 0 < i < |victims| ensures Deletes(victims[i - 1], victims[i], retain) {
      VictimEvictable(d, retain, done, i - 1);
    }
  }

  lemma {:induction false} AppendDeletions(ds: seq<Dir>, stages: seq<Stage>, victims: seq<Dir>, c: Checkpoint, retain: nat)
    returns (ds': seq<Dir>, stages': seq<Stage>)
    requires SaveStates(ds, stages, c, retain) && stages[|stages| - 1].ToRetain?
    requires |victims| >= 1 && victims[0] == ds[|ds| - 1]
    requires forall i :: 0 < i < |victims| ==> Deletes(victims[i - 1], victims[i], retain)
    ensures SaveStates(ds', stages', c, retain)
    ensures ds'[0] == ds[0] && ds'[|ds'| - 1] == victims[|victims| - 1]
  {
    var n := |victims| - 1;
    ds' := ds + victims[1..];
    stages' := stages + seq(n, i => ToRetain);
    forall i | 0 < i < |ds'| ensures SaveStep(ds'[i - 1], stages'[i - 1], ds'[i], stages'[i], c, retain) {
      if i >= |ds| {
        var k := i - |ds| + 1;
        assert ds'[i] == victims[k];
        assert ds'[i - 1] == victims[k - 1];
        assert Deletes(victims[k - 1], victims[k], retain);
      } else {
        assert SaveStep(ds[i - 1], stages[i - 1], ds[i], stages[i], c, retain);
      }
    }
  }
}
