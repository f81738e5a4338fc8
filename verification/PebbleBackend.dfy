/** The Pebble backend as an object, against memory. */
module PebbleBackendModel {
  import opened Prelude
  import opened ByteOrder
  import opened PebbleKeys
  import opened PebbleModel

  // ---- Iteration in key order ---------------------------------------------------------------

  ghost predicate Sorted(ks: seq<Bytes>) {
    forall i, j :: 0 <= i < j < |ks| ==> Less(ks[i], ks[j])
  }

  function Insert(ks: seq<Bytes>, k: Bytes): seq<Bytes> {
    if ks == [] then [k]
    else if Less(k, ks[0]) then [k] + ks
    else [ks[0]] + Insert(ks[1..], k)
  }

  lemma {:induction false} InsertKeeps(ks: seq<Bytes>, k: Bytes)
    requires Sorted(ks) && k !in ks
    ensures Sorted(Insert(ks, k)) && forall x :: x in Insert(ks, k) <==> x in ks || x == k
  {
    if ks != [] {
      LessTotal(k, ks[0]);
      if Less(k, ks[0]) {
        forall j | 0 <= j < |ks| ensures Less(k, ks[j]) {
          if j > 0 {
            LessTrans(k, ks[0], ks[j]);
          }
        }
      } else {
        assert ks == [ks[0]] + ks[1..];
        InsertKeeps(ks[1..], k);
        var t := Insert(ks[1..], k);
        forall j | 0 <= j < |t| ensures Less(ks[0], t[j]) {
          assert t[j] in t;
          if t[j] != k {
            assert t[j] in ks[1..];
          }
        }
      }
    }
  }

  /** What an iterator with these bounds visits, in its order. */
  method Range(db: Db, lo: Bytes, hi: Bytes) returns (ks: seq<Bytes>)
    ensures Sorted(ks) && forall k :: k in ks <==> k in db && Within(k, lo, hi)
  {
    ks := [];
    var rest := db.Keys;
    while rest != {}
      invariant rest <= db.Keys && Sorted(ks)
      invariant forall k :: k in ks <==> k in db && k !in rest && Within(k, lo, hi)
      decreases |rest|
    {
      var k :| k in rest;
      rest := rest - {k};
      if Within(k, lo, hi) {
        InsertKeeps(ks, k);
        ks := Insert(ks, k);
      }
    }
  }

  method Scan(db: Db, prefix: Bytes) returns (ks: seq<Bytes>)
    requires HasRoom(prefix)
    ensures Sorted(ks) && forall k :: k in ks <==> k in db && prefix <= k
  {
    var upper := PrefixUpperBound(prefix);
    ks := Range(db, prefix, upper);
    assert forall k :: Within(k, prefix, upper) <==> prefix <= k;
  }

  method DeleteRange(db: Db, prefix: Bytes) returns (r: Db)
    requires HasRoom(prefix)
    ensures r == Without(db, prefix)
  {
    var upper := PrefixUpperBound(prefix);
    r := map k | k in db && !Within(k, prefix, upper) :: db[k];
    assert forall k :: Within(k, prefix, upper) <==> prefix <= k;
  }

  lemma {:induction false} SortedUnique(a: seq<Bytes>, b: seq<Bytes>)
    requires Sorted(a) && Sorted(b) && forall k :: k in a <==> k in b
    ensures a == b
    decreases |a|
  {
    assert b != [] ==> b[0] in b;
    if a != [] {
      assert a[0] in b;
      assert b[0] in a;
      SameFirst(a, b);
      SameRest(a, b);
      SortedUnique(a[1..], b[1..]);
      assert a == [a[0]] + a[1..] && b == [b[0]] + b[1..];
    }
  }

  lemma SameFirst(a: seq<Bytes>, b: seq<Bytes>)
    requires Sorted(a) && Sorted(b) && a != [] && b != [] && a[0] in b && b[0] in a
    ensures a[0] == b[0]
  {
    LessTotal(a[0], b[0]);
  }

  lemma SameRest(a: seq<Bytes>, b: seq<Bytes>)
    requires Sorted(a) && Sorted(b) && a != [] && b != [] && a[0] == b[0] && forall k :: k in a <==> k in b
    ensures forall k :: k in a[1..] <==> k in b[1..]
  {
    FirstOnce(a);
    FirstOnce(b);
    assert a == [a[0]] + a[1..] && b == [b[0]] + b[1..];
    forall k ensures k in a[1..] <==> k in b[1..] {
      assert k in a <==> k == a[0] || k in a[1..];
      assert k in b <==> k == b[0] || k in b[1..];
    }
  }

  lemma FirstOnce(a: seq<Bytes>)
    requires Sorted(a) && a != []
    ensures a[0] !in a[1..]
  {
    LessTotal(a[0], a[0]);
    forall i | 1 <= i < |a| ensures a[i] != a[0] {
      assert Less(a[0], a[i]);
    }
  }

  function KeysOf(id: Id, es: seq<Entry>): (ks: seq<Bytes>)
    ensures |ks| == |es| && forall i :: 0 <= i < |es| ==> ks[i] == ListKey(id, es[i].n)
  {
    if es == [] then [] else KeysOf(id, es[..|es| - 1]) + [ListKey(id, es[|es| - 1].n)]
  }

  /** A scan of a list's prefix visits its entries in append order. */
  lemma ScanIsList(db: Db, values: map<Id, Bytes>, entries: map<Id, seq<Entry>>, id: Id, ks: seq<Bytes>)
    requires Rep(db, values, entries) && Clean(values, entries) && NulFree(id.ns) && NulFree(id.key)
    requires Sorted(ks) && forall k :: k in ks <==> k in db && ListPrefix(id) <= k
    ensures ks == KeysOf(id, Entries(entries, id))
    ensures forall i :: 0 <= i < |ks| ==> ks[i] in db && db[ks[i]] == Entries(entries, id)[i].v
  {
    var es := Entries(entries, id);
    var ls := KeysOf(id, es);
    forall i, j | 0 <= i < j < |ls| ensures Less(ls[i], ls[j]) {
      ListKeyOrder(id, es[i].n, es[j].n);
    }
    forall k ensures k in ks <==> k in ls {
      UnderPrefix(db, values, entries, id, k);
      if k in ls {
        var i :| 0 <= i < |ls| && ls[i] == k;
        assert es[i] in es && k == ListKey(id, es[i].n);
      }
      if e :| e in es && k == ListKey(id, e.n) {
        var i :| 0 <= i < |es| && es[i] == e;
        assert ls[i] == k;
      }
    }
    SortedUnique(ks, ls);
    forall i | 0 <= i < |ks| ensures ks[i] in db && db[ks[i]] == es[i].v {
      UnderPrefix(db, values, entries, id, ks[i]);
      assert es[i] in es;
    }
  }

  // ---- The backend -------------------------------------------------------------------------------

  /** Every remembered counter is above the stored entries of its list. */
  ghost predicate SeqsOk(seqs: map<Id, nat>, entries: map<Id, seq<Entry>>) {
    forall id, e :: id in seqs && e in Entries(entries, id) ==> e.n < seqs[id]
  }

  /** Sequence numbers below `n` have sufficed so far. */
  ghost predicate Below(seqs: map<Id, nat>, entries: map<Id, seq<Entry>>, n: nat) {
    && (forall id :: id in seqs ==> seqs[id] <= n)
    && (forall id, e :: id in entries && e in entries[id] ==> e.n < n)
  }

  class PebbleBackend {
    var db: Db
    var seqs: map<Id, nat>
    ghost var values: map<Id, Bytes>
    ghost var entries: map<Id, seq<Entry>>

    ghost predicate Valid()
      reads this
    {
      Rep(db, values, entries) && Clean(values, entries) && SeqsOk(seqs, entries)
    }

    /** The in-memory state this backend stands for. */
    ghost function View(): Memory
      reads this
    {
      Abstract(values, entries)
    }

    constructor ()
      ensures Valid() && View() == Memory(map[], map[]) && db == map[] && seqs == map[] && values == map[] && entries == map[]
    {
      db, seqs, values, entries := map[], map[], map[], map[];
    }

    method Get(id: Id) returns (r: Option<Bytes>)
      requires Valid() && NulFree(id.ns)
      ensures r == View().Get(id)
    {
      ValueAt(db, values, entries, id);
      if ValueKey(id) in db {
        return Some(db[ValueKey(id)]);
      }
      return None;
    }

    method Set(id: Id, v: Bytes)
      requires Valid() && NulFree(id.ns)
      modifies this`db, this`values
      ensures Valid() && View() == old(View()).Set(id, v)
    {
      PutValue(id, v);
    }

    method PutValue(id: Id, v: Bytes)
      requires Valid() && NulFree(id.ns)
      modifies this`db, this`values
      ensures Valid() && values == old(values)[id := v]
    {
      SetRep(db, values, entries, id, v);
      db := db[ValueKey(id) := v];
      values := values[id := v];
    }

    method Delete(id: Id)
      requires Valid() && NulFree(id.ns)
      modifies this`db, this`values
      ensures Valid() && View() == old(View()).Delete(id)
    {
      DeleteRep(db, values, entries, id);
      db := db - {ValueKey(id)};
      values := values - {id};
    }

    /** The first unused sequence number of a list, read from the byte map. */
    method NextListSeq(id: Id) returns (n: nat)
      requires Valid() && NulFree(id.ns) && NulFree(id.key) && forall e :: e in Entries(entries, id) ==> e.n + 1 < SEQ_LIMIT
      ensures Unused(entries, id, n) && (n == 0 || exists e :: e in Entries(entries, id) && n == e.n + 1)
    {
      Room(id);
      var ks := Scan(db, ListPrefix(id));
      ScanIsList(db, values, entries, id, ks);
      ghost var es := Entries(entries, id);
      if |ks| == 0 {
        return 0;
      }
      var k := ks[|ks| - 1];
      ListKeySeq(id, es[|es| - 1].n);
      n := FromBigEndian(k[|k| - 8..]) + 1;
      assert es[|es| - 1] in es;
      forall e | e in es ensures e.n < n {
        var i :| 0 <= i < |es| && es[i] == e;
      }
    }

    /** The remembered counter of a list, or the one read back. */
    method SeqFor(id: Id, ghost limit: nat) returns (n: nat)
      requires Valid() && NulFree(id.ns) && NulFree(id.key) && Below(seqs, entries, limit) && limit + 1 < SEQ_LIMIT
      ensures Unused(entries, id, n) && n <= limit
    {
      if id in seqs {
        return seqs[id];
      }
      n := NextListSeq(id);
    }

    /** An append never overwrites a stored entry, also when the counter has to be read back from the byte map. */
    method Append(id: Id, v: Bytes, ghost limit: nat)
      requires Valid() && NulFree(id.ns) && NulFree(id.key) && Below(seqs, entries, limit) && limit + 1 < SEQ_LIMIT
      modifies this
      ensures Valid() && View() == old(View()).Append(id, v) && Below(seqs, entries, limit + 1)
      ensures forall k :: k in old(db) ==> k in db && db[k] == old(db)[k]
    {
      var n := SeqFor(id, limit);
      AppendSeqs(seqs, entries, id, n, v, limit);
      AppendView(values, entries, id, n, v);
      seqs := seqs[id := n + 1];
      PutEntry(id, n, v);
    }

    method PutEntry(id: Id, n: nat, v: Bytes)
      requires Rep(db, values, entries) && Clean(values, entries) && NulFree(id.ns) && NulFree(id.key) && Unused(entries, id, n)
      modifies this`db, this`entries
      ensures Rep(db, values, entries) && Clean(values, entries)
      ensures entries == Added(old(entries), id, n, v) && ListKey(id, n) !in old(db) && db == old(db)[ListKey(id, n) := v]
    {
      AppendRep(db, values, entries, id, n, v);
      FreshKey(db, values, entries, id, n);
      db := db[ListKey(id, n) := v];
      entries := Added(entries, id, n, v);
    }

    method GetAll(id: Id) returns (out: seq<Bytes>)
      requires Valid() && NulFree(id.ns) && NulFree(id.key)
      ensures out == View().GetAll(id)
    {
      Room(id);
      var ks := Scan(db, ListPrefix(id));
      ScanIsList(db, values, entries, id, ks);
      out := ReadAll(db, ks);
      assert out == Vals(Entries(entries, id));
    }

    method Clear(id: Id)
      requires Valid() && NulFree(id.ns) && NulFree(id.key)
      modifies this`db, this`entries
      ensures Valid() && View() == old(View()).Clear(id) && entries == old(entries) - {id}
    {
      ClearView(values, entries, id);
      DropList(id);
    }

    method DropList(id: Id)
      requires Rep(db, values, entries) && Clean(values, entries) && NulFree(id.ns) && NulFree(id.key)
      modifies this`db, this`entries
      ensures Rep(db, values, entries) && Clean(values, entries) && entries == old(entries) - {id}
    {
      ClearRep(db, values, entries, id);
      Room(id);
      db := DeleteRange(db, ListPrefix(id));
      entries := entries - {id};
    }

    /** The keys of a namespace's values. */
    method ValueKeys(ns: Bytes) returns (keys: seq<Bytes>)
      requires Valid() && NulFree(ns)
      ensures (set k | k in keys) == View().ValueKeys(ns)
    {
      Room(Id(ns, []));
      var ks := Scan(db, ValuePrefix(ns));
      keys := StripAll(ks, |ValuePrefix(ns)|, 0);
      StrippedValues(db, values, entries, ns, ks, keys);
    }

    method SnapshotAll(ns: Bytes) returns (m: map<Bytes, Bytes>)
      requires Valid() && NulFree(ns)
      ensures m == View().SnapshotAll(ns)
    {
      Room(Id(ns, []));
      var ks := Scan(db, ValuePrefix(ns));
      assert forall i :: 0 <= i < |ks| ==> ks[i] in ks;
      StripDistinct(ks, ValuePrefix(ns));
      m := Snapshot(db, ks, |ValuePrefix(ns)|);
      SnapshotIs(db, values, entries, ns, ks, m);
    }

    /** Replace all values of a namespace. */
    method RestoreAll(ns: Bytes, m: map<Bytes, Bytes>)
      requires Valid() && NulFree(ns)
      modifies this`db, this`values
      ensures Valid() && View() == old(View()).RestoreAll(ns, m)
    {
      Room(Id(ns, []));
      DropRep(db, values, entries, ns);
      db := DeleteRange(db, ValuePrefix(ns));
      values := Others(values, ns);
      SetAll(ns, m);
    }

    method SetAll(ns: Bytes, m: map<Bytes, Bytes>)
      requires Valid() && NulFree(ns)
      modifies this`db, this`values
      ensures Valid() && values == old(values) + (map id | id in In(ns, m.Keys) :: m[id.key])
    {
      var rest := m.Keys;
      while rest != {}
        invariant Valid() && rest <= m.Keys
        invariant values == old(values) + (map id | id in In(ns, m.Keys - rest) :: m[id.key])
        decreases |rest|
      {
        var k :| k in rest;
        SetAllNext(old(values), ns, m, rest, k);
        PutValue(Id(ns, k), m[k]);
        rest := rest - {k};
      }
      assert m.Keys - rest == m.Keys;
    }

    /** The keys of a namespace's lists, each once. */
    method ListKeys(ns: Bytes) returns (keys: seq<Bytes>)
      requires Valid() && NulFree(ns)
      ensures (set k | k in keys) == View().ListKeys(ns) && forall i, j :: 0 <= i < j < |keys| ==> keys[i] != keys[j]
    {
      Room(Id(ns, []));
      var prefix := ListNamespace(ns);
      var ks := Scan(db, prefix);
      var seen: set<Bytes> := {};
      keys := [];
      for i := 0 to |ks|
        invariant seen == (set k | k in keys)
        invariant forall k :: k in keys <==> exists j :: 0 <= j < i && |ks[j]| >= |prefix| + 9 && k == Strip(ks[j], |prefix|, 9)
        invariant forall j, l :: 0 <= j < l < |keys| ==> keys[j] != keys[l]
      {
        if |ks[i]| >= |prefix| + 9 {
          var k := Strip(ks[i], |prefix|, 9);
          if k !in seen {
            seen := seen + {k};
            keys := keys + [k];
          }
        }
      }
      StrippedLists(db, values, entries, ns, ks, keys);
    }

    /** A checkpoint is a copy of the byte map. */
    method CheckpointTo() returns (copy: Db)
      requires Valid()
      ensures copy == db && Rep(copy, values, entries) && Clean(values, entries)
    {
      return db;
    }

    /** After a restore no counter is remembered. */
    method RestoreFrom(copy: Db, ghost values: map<Id, Bytes>, ghost entries: map<Id, seq<Entry>>)
      requires Rep(copy, values, entries) && Clean(values, entries)
      modifies this
      ensures Valid() && View() == Abstract(values, entries) && this.values == values && this.entries == entries && seqs == map[]
    {
      db, seqs := copy, map[];
      this.values, this.entries := values, entries;
    }
  }

  /** What is left of a key without `front` bytes at its front and `back` bytes at its back. */
  function Strip(k: Bytes, front: nat, back: nat): Bytes {
    if front + back <= |k| then k[front..|k| - back] else []
  }

  method StripAll(ks: seq<Bytes>, front: nat, back: nat) returns (keys: seq<Bytes>)
    ensures forall x :: x in keys <==> exists j :: 0 <= j < |ks| && x == Strip(ks[j], front, back)
  {
    keys := [];
    for i := 0 to |ks|
      invariant forall x :: x in keys <==> exists j :: 0 <= j < i && x == Strip(ks[j], front, back)
    {
      keys := keys + [Strip(ks[i], front, back)];
    }
  }

  method Snapshot(db: Db, ks: seq<Bytes>, front: nat) returns (m: map<Bytes, Bytes>)
    requires (forall i :: 0 <= i < |ks| ==> ks[i] in db) && forall i, j :: 0 <= i < j < |ks| ==> Strip(ks[i], front, 0) != Strip(ks[j], front, 0)
    ensures forall x :: x in m <==> exists j :: 0 <= j < |ks| && x == Strip(ks[j], front, 0)
    ensures forall j :: 0 <= j < |ks| ==> Strip(ks[j], front, 0) in m && m[Strip(ks[j], front, 0)] == db[ks[j]]
  {
    m := map[];
    for i := 0 to |ks|
      invariant forall x :: x in m <==> exists j :: 0 <= j < i && x == Strip(ks[j], front, 0)
      invariant forall j :: 0 <= j < i ==> Strip(ks[j], front, 0) in m && m[Strip(ks[j], front, 0)] == db[ks[j]]
    {
      m := m[Strip(ks[i], front, 0) := db[ks[i]]];
    }
  }

  /** The keys with the prefix of a namespace's values are exactly those values. */
  lemma UnderValues(db: Db, values: map<Id, Bytes>, entries: map<Id, seq<Entry>>, ns: Bytes, k: Bytes)
    requires Rep(db, values, entries) && Clean(values, entries) && NulFree(ns)
    ensures k in db && ValuePrefix(ns) <= k <==> exists id :: id in values && id.ns == ns && k == ValueKey(id)
    ensures forall id :: id in values && id.ns == ns && k == ValueKey(id) ==>
              k in db && db[k] == values[id] && Strip(k, |ValuePrefix(ns)|, 0) == id.key
  {
    forall id | id in values && id.ns == ns && k == ValueKey(id)
      ensures k in db && db[k] == values[id] && ValuePrefix(ns) <= k && Strip(k, |ValuePrefix(ns)|, 0) == id.key {
      ValueAt(db, values, entries, id);
      ValuePrefixOf(ns, id);
    }
    if k in db && ValuePrefix(ns) <= k {
      assert Has(db, k, db[k]);
      PrefixNotEntry(entries, ns, k, db[k]);
      var id :| id in values && k == ValueKey(id) && db[k] == values[id];
      ValuePrefixOf(ns, id);
    }
  }

  lemma SetAllNext(values: map<Id, Bytes>, ns: Bytes, m: map<Bytes, Bytes>, rest: set<Bytes>, k: Bytes)
    requires rest <= m.Keys && k in rest
    ensures (values + (map id | id in In(ns, m.Keys - rest) :: m[id.key]))[Id(ns, k) := m[k]]
         == values + (map id | id in In(ns, m.Keys - (rest - {k})) :: m[id.key])
  {
    assert m.Keys - (rest - {k}) == (m.Keys - rest) + {k};
    assert In(ns, m.Keys - (rest - {k})) == In(ns, m.Keys - rest) + {Id(ns, k)};
  }

  lemma StripDistinct(ks: seq<Bytes>, prefix: Bytes)
    requires Sorted(ks) && forall i :: 0 <= i < |ks| ==> prefix <= ks[i]
    ensures forall i, j :: 0 <= i < j < |ks| ==> Strip(ks[i], |prefix|, 0) != Strip(ks[j], |prefix|, 0)
  {
    forall i, j | 0 <= i < j < |ks| ensures Strip(ks[i], |prefix|, 0) != Strip(ks[j], |prefix|, 0) {
      assert ks[i] == prefix + Strip(ks[i], |prefix|, 0) && ks[j] == prefix + Strip(ks[j], |prefix|, 0);
      LessTotal(ks[i], ks[j]);
    }
  }

  lemma StrippedValues(db: Db, values: map<Id, Bytes>, entries: map<Id, seq<Entry>>, ns: Bytes, ks: seq<Bytes>, keys: seq<Bytes>)
    requires Rep(db, values, entries) && Clean(values, entries) && NulFree(ns)
    requires forall k :: k in ks <==> k in db && ValuePrefix(ns) <= k
    requires forall x :: x in keys <==> exists j :: 0 <= j < |ks| && x == Strip(ks[j], |ValuePrefix(ns)|, 0)
    ensures (set k | k in keys) == Abstract(values, entries).ValueKeys(ns)
  {
    forall x ensures x in keys <==> x in Abstract(values, entries).ValueKeys(ns) {
      if x in keys {
        var j :| 0 <= j < |ks| && x == Strip(ks[j], |ValuePrefix(ns)|, 0);
        assert ks[j] in ks;
        UnderValues(db, values, entries, ns, ks[j]);
        var id :| id in values && id.ns == ns && ks[j] == ValueKey(id);
        assert x == id.key;
      }
      if x in Abstract(values, entries).ValueKeys(ns) {
        var k := ValueKey(Id(ns, x));
        UnderValues(db, values, entries, ns, k);
        assert k in ks;
        var j :| 0 <= j < |ks| && ks[j] == k;
      }
    }
  }

  lemma SnapshotIs(db: Db, values: map<Id, Bytes>, entries: map<Id, seq<Entry>>, ns: Bytes, ks: seq<Bytes>, m: map<Bytes, Bytes>)
    requires Rep(db, values, entries) && Clean(values, entries) && NulFree(ns)
    requires forall k :: k in ks <==> k in db && ValuePrefix(ns) <= k
    requires forall x :: x in m <==> exists j :: 0 <= j < |ks| && x == Strip(ks[j], |ValuePrefix(ns)|, 0)
    requires forall j :: 0 <= j < |ks| ==> ks[j] in db && Strip(ks[j], |ValuePrefix(ns)|, 0) in m && m[Strip(ks[j], |ValuePrefix(ns)|, 0)] == db[ks[j]]
    ensures m == Abstract(values, entries).SnapshotAll(ns)
  {
    var all := Abstract(values, entries).SnapshotAll(ns);
    forall x | x in m ensures x in all && m[x] == all[x] {
      var j :| 0 <= j < |ks| && x == Strip(ks[j], |ValuePrefix(ns)|, 0);
      assert ks[j] in ks;
      UnderValues(db, values, entries, ns, ks[j]);
      var id :| id in values && id.ns == ns && ks[j] == ValueKey(id);
      assert id == Id(ns, x);
    }
    forall x | x in all ensures x in m {
      var k := ValueKey(Id(ns, x));
      UnderValues(db, values, entries, ns, k);
      assert k in ks;
      var j :| 0 <= j < |ks| && ks[j] == k;
    }
  }

  lemma UnderNamespace(db: Db, values: map<Id, Bytes>, entries: map<Id, seq<Entry>>, ns: Bytes, k: Bytes)
    requires Rep(db, values, entries) && Clean(values, entries) && NulFree(ns)
    ensures k in db && ListNamespace(ns) <= k ==>
              exists id :: id in entries && id.ns == ns && |k| >= |ListNamespace(ns)| + 9 && Strip(k, |ListNamespace(ns)|, 9) == id.key
  {
    if k in db && ListNamespace(ns) <= k {
      assert Has(db, k, db[k]);
      NamespaceNotValue(values, ns, k, db[k]);
      var id: Id, e: Entry :| id in entries && e in entries[id] && k == ListKey(id, e.n) && db[k] == e.v;
      ListNamespaceOf(ns, id, e.n);
    }
  }

  lemma NamespaceNotValue(values: map<Id, Bytes>, ns: Bytes, k: Bytes, v: Bytes)
    requires ListNamespace(ns) <= k
    ensures !IsValue(values, k, v)
  {
    forall i ensures k != ValueKey(i) {
      TagsDiffer(i, Id(ns, []), 0);
    }
  }

  lemma FirstEntry(db: Db, values: map<Id, Bytes>, entries: map<Id, seq<Entry>>, id: Id)
    requires Rep(db, values, entries) && Clean(values, entries) && id in entries
    ensures var k := ListKey(id, entries[id][0].n);
            k in db && ListNamespace(id.ns) <= k && |k| >= |ListNamespace(id.ns)| + 9 && Strip(k, |ListNamespace(id.ns)|, 9) == id.key
  {
    var e := entries[id][0];
    assert IsEntry(entries, ListKey(id, e.n), e.v);
    assert Has(db, ListKey(id, e.n), e.v);
    ListNamespaceOf(id.ns, id, e.n);
  }

  lemma StrippedLists(db: Db, values: map<Id, Bytes>, entries: map<Id, seq<Entry>>, ns: Bytes, ks: seq<Bytes>, keys: seq<Bytes>)
    requires Rep(db, values, entries) && Clean(values, entries) && NulFree(ns)
    requires forall k :: k in ks <==> k in db && ListNamespace(ns) <= k
    requires forall k :: k in keys <==> exists j :: 0 <= j < |ks| && |ks[j]| >= |ListNamespace(ns)| + 9 && k == Strip(ks[j], |ListNamespace(ns)|, 9)
    ensures (set k | k in keys) == Abstract(values, entries).ListKeys(ns)
  {
    forall x ensures x in keys <==> x in Abstract(values, entries).ListKeys(ns) {
      if x in keys {
        var j :| 0 <= j < |ks| && |ks[j]| >= |ListNamespace(ns)| + 9 && x == Strip(ks[j], |ListNamespace(ns)|, 9);
        assert ks[j] in ks;
        UnderNamespace(db, values, entries, ns, ks[j]);
      }
      if x in Abstract(values, entries).ListKeys(ns) {
        FirstEntry(db, values, entries, Id(ns, x));
        var k := ListKey(Id(ns, x), entries[Id(ns, x)][0].n);
        assert k in ks;
        var j :| 0 <= j < |ks| && ks[j] == k;
      }
    }
  }

  method ReadAll(db: Db, ks: seq<Bytes>) returns (out: seq<Bytes>)
    requires forall i :: 0 <= i < |ks| ==> ks[i] in db
    ensures |out| == |ks| && forall i :: 0 <= i < |ks| ==> out[i] == db[ks[i]]
  {
    out := [];
    for i := 0 to |ks|
      invariant |out| == i && forall j :: 0 <= j < i ==> out[j] == db[ks[j]]
    {
      out := out + [db[ks[i]]];
    }
  }

  lemma AppendSeqs(seqs: map<Id, nat>, entries: map<Id, seq<Entry>>, id: Id, n: nat, v: Bytes, limit: nat)
    requires SeqsOk(seqs, entries) && Below(seqs, entries, limit) && Unused(entries, id, n) && n <= limit
    ensures SeqsOk(seqs[id := n + 1], Added(entries, id, n, v)) && Below(seqs[id := n + 1], Added(entries, id, n, v), limit + 1)
  {
    forall i, e | i in Added(entries, id, n, v) && e in Added(entries, id, n, v)[i] ensures e.n < limit + 1 {
      if e in Entries(entries, i) {
        assert i in entries && e in entries[i];
      }
    }
  }

  lemma FreshKey(db: Db, values: map<Id, Bytes>, entries: map<Id, seq<Entry>>, id: Id, n: nat)
    requires Rep(db, values, entries) && Clean(values, entries) && NulFree(id.ns) && NulFree(id.key) && Unused(entries, id, n)
    ensures ListKey(id, n) !in db
  {
    var k := ListKey(id, n);
    if k in db {
      assert Has(db, k, db[k]);
      NotValue(values, id, n, db[k]);
      var i: Id, e: Entry :| i in entries && e in entries[i] && k == ListKey(i, e.n) && db[k] == e.v;
      EntryKey(values, entries, id, n, i, e);
    }
  }

  lemma ClearView(values: map<Id, Bytes>, entries: map<Id, seq<Entry>>, id: Id)
    ensures Abstract(values, entries - {id}) == Abstract(values, entries).Clear(id)
  {
  }

  lemma AppendView(values: map<Id, Bytes>, entries: map<Id, seq<Entry>>, id: Id, n: nat, v: Bytes)
    ensures Abstract(values, Added(entries, id, n, v)) == Abstract(values, entries).Append(id, v)
  {
    var es := Entries(entries, id);
    assert (es + [Entry(n, v)])[..|es|] == es;
  }

  // ---- Every sequence of operations -----------------------------------------------------------------

  /** The name of a checkpoint directory. */
  type Name = string

  datatype Op =
    | Set(id: Id, v: Bytes) | Get(id: Id) | Delete(id: Id) | ValueKeys(ns: Bytes) | SnapshotAll(ns: Bytes)
    | RestoreAll(ns: Bytes, m: map<Bytes, Bytes>)
    | Append(id: Id, v: Bytes) | GetAll(id: Id) | Clear(id: Id) | ListKeys(ns: Bytes)
    | CheckpointTo(dir: Name) | RestoreFrom(dir: Name) | Discard(dir: Name) | Close | Reset
  {
    /** Namespaces and list keys are NUL-free. */
    predicate NulFreeNames() {
      match this
      case Set(id, _) => NulFree(id.ns)
      case Get(id) => NulFree(id.ns)
      case Delete(id) => NulFree(id.ns)
      case ValueKeys(ns) => NulFree(ns)
      case SnapshotAll(ns) => NulFree(ns)
      case RestoreAll(ns, _) => NulFree(ns)
      case Append(id, _) => NulFree(id.ns) && NulFree(id.key)
      case GetAll(id) => NulFree(id.ns) && NulFree(id.key)
      case Clear(id) => NulFree(id.ns) && NulFree(id.key)
      case ListKeys(ns) => NulFree(ns)
      case _ => true
    }

    /** Operations on the directories and on the backend as a whole. */
    predicate Lifecycle() { CheckpointTo? || RestoreFrom? || Discard? || Close? || Reset? }

    predicate Reads() { Get? || ValueKeys? || SnapshotAll? || GetAll? || ListKeys? }
  }

  datatype Result =
    | Done | Failed | Value(v: Option<Bytes>) | List(vs: seq<Bytes>) | Names(ks: set<Bytes>) | All(m: map<Bytes, Bytes>)

  /** The reference: the in-memory backend, whether it is open, and the states its checkpoint directories hold. */
  datatype Reference = Reference(open: bool, live: Memory, saved: map<Name, Memory>)

  function OnMemory(m: Memory, op: Op): (Memory, Result) {
    match op
    case Set(id, v) => (m.Set(id, v), Done)
    case Get(id) => (m, Value(m.Get(id)))
    case Delete(id) => (m.Delete(id), Done)
    case ValueKeys(ns) => (m, Names(m.ValueKeys(ns)))
    case SnapshotAll(ns) => (m, All(m.SnapshotAll(ns)))
    case RestoreAll(ns, n) => (m.RestoreAll(ns, n), Done)
    case Append(id, v) => (m.Append(id, v), Done)
    case GetAll(id) => (m, List(m.GetAll(id)))
    case Clear(id) => (m.Clear(id), Done)
    case ListKeys(ns) => (m, Names(m.ListKeys(ns)))
    case _ => (m, Done)
  }

  /** The answer of a closed backend: nothing is stored. */
  function Nothing(op: Op): Result {
    match op
    case Get(_) => Value(None)
    case ValueKeys(_) => Names({})
    case SnapshotAll(_) => All(map[])
    case GetAll(_) => List([])
    case ListKeys(_) => Names({})
    case RestoreAll(_, _) => Failed
    case _ => Done
  }

  /**
    A checkpoint goes to a directory that does not exist yet. A restore from a directory that is
    not there fails after the live state is gone, and leaves the backend closed.
   */
  function Apply(r: Reference, op: Op): (Reference, Result) {
    match op
    case CheckpointTo(dir) => if r.open && dir !in r.saved then (r.(saved := r.saved[dir := r.live]), Done) else (r, Failed)
    case RestoreFrom(dir) =>
      if dir in r.saved then (r.(open := true, live := r.saved[dir]), Done)
      else (r.(open := false, live := Memory(map[], map[])), Failed)
    case Discard(dir) => (r.(saved := r.saved - {dir}), Done)
    case Close => (r.(open := false), Done)
    case Reset => (r.(open := true, live := Memory(map[], map[])), Done)
    case _ => if r.open then (r.(live := OnMemory(r.live, op).0), OnMemory(r.live, op).1) else (r, Nothing(op))
  }

  function State(ops: seq<Op>): Reference {
    if ops == [] then Reference(true, Memory(map[], map[]), map[]) else Apply(State(ops[..|ops| - 1]), ops[|ops| - 1]).0
  }

  function Results(ops: seq<Op>): seq<Result> {
    if ops == [] then [] else Results(ops[..|ops| - 1]) + [Apply(State(ops[..|ops| - 1]), ops[|ops| - 1]).1]
  }

  /** What a checkpoint directory represents. */
  datatype Copy = Copy(values: map<Id, Bytes>, entries: map<Id, seq<Entry>>)

  ghost predicate CopyOk(db: Db, c: Copy, limit: nat) {
    Rep(db, c.values, c.entries) && Clean(c.values, c.entries) && Below(map[], c.entries, limit)
  }

  ghost predicate CopiesOk(saved: map<Name, Db>, copies: map<Name, Copy>, limit: nat) {
    copies.Keys == saved.Keys && forall dir :: dir in saved ==> CopyOk(saved[dir], copies[dir], limit)
  }

  lemma CopiesLater(saved: map<Name, Db>, copies: map<Name, Copy>, limit: nat)
    requires CopiesOk(saved, copies, limit)
    ensures CopiesOk(saved, copies, limit + 1)
  {
  }

  ghost function Views(copies: map<Name, Copy>): map<Name, Memory> {
    map dir | dir in copies :: Abstract(copies[dir].values, copies[dir].entries)
  }

  lemma StoredView(copies: map<Name, Copy>, dir: Name, c: Copy)
    ensures Views(copies[dir := c]) == Views(copies)[dir := Abstract(c.values, c.entries)]
  {
    var a, b := Views(copies[dir := c]), Views(copies)[dir := Abstract(c.values, c.entries)];
    assert a.Keys == b.Keys;
    forall n | n in a ensures a[n] == b[n] {
    }
  }

  lemma RemovedView(copies: map<Name, Copy>, dir: Name)
    ensures Views(copies - {dir}) == Views(copies) - {dir}
  {
  }

  /** A backend with its checkpoint directories, as the engine drives them. */
  class Driver {
    const p: PebbleBackend
    var closed: bool
    var saved: map<Name, Db>
    ghost var copies: map<Name, Copy>

    ghost predicate Valid(limit: nat)
      reads this, p
    {
      p.Valid() && Below(p.seqs, p.entries, limit) && CopiesOk(saved, copies, limit)
    }

    ghost function View(): Reference
      reads this, p
    {
      Reference(!closed, p.View(), Views(copies))
    }

    constructor ()
      ensures Valid(0) && View() == State([]) && fresh(p)
    {
      p := new PebbleBackend();
      closed, saved, copies := false, map[], map[];
    }

    /** An operation that changes nothing. */
    method Ask(op: Op) returns (r: Result)
      requires p.Valid() && op.NulFreeNames() && op.Reads()
      ensures OnMemory(p.View(), op) == (p.View(), r)
    {
      match op
      case Get(id) => var v := p.Get(id); r := Value(v);
      case ValueKeys(ns) => var ks := p.ValueKeys(ns); r := Names(set k | k in ks);
      case SnapshotAll(ns) => var m := p.SnapshotAll(ns); r := All(m);
      case GetAll(id) => var vs := p.GetAll(id); r := List(vs);
      case ListKeys(ns) => var ks := p.ListKeys(ns); r := Names(set k | k in ks);
    }

    method Change(op: Op, ghost limit: nat)
      requires p.Valid() && Below(p.seqs, p.entries, limit) && op.NulFreeNames() && limit + 1 < SEQ_LIMIT
      requires !op.Lifecycle() && !op.Reads()
      modifies p
      ensures p.Valid() && Below(p.seqs, p.entries, limit + 1) && OnMemory(old(p.View()), op) == (p.View(), Done)
    {
      match op
      case Set(id, v) => p.Set(id, v);
      case Delete(id) => p.Delete(id);
      case RestoreAll(ns, m) => p.RestoreAll(ns, m);
      case Append(id, v) => p.Append(id, v, limit);
      case Clear(id) => p.Clear(id);
    }

    method Checkpoint(dir: Name, ghost limit: nat) returns (r: Result)
      requires Valid(limit)
      modifies this
      ensures Valid(limit) && Apply(old(View()), CheckpointTo(dir)) == (View(), r)
    {
      if closed || dir in saved {
        return Failed;
      }
      var copy := p.CheckpointTo();
      ghost var c := Copy(p.values, p.entries);
      StoredView(copies, dir, c);
      assert CopyOk(copy, c, limit);
      saved, copies := saved[dir := copy], copies[dir := c];
      return Done;
    }

    method Restore(dir: Name, ghost limit: nat) returns (r: Result)
      requires Valid(limit)
      modifies this, p
      ensures Valid(limit) && Apply(old(View()), RestoreFrom(dir)) == (View(), r)
    {
      if dir in saved {
        assert CopyOk(saved[dir], copies[dir], limit);
        p.RestoreFrom(saved[dir], copies[dir].values, copies[dir].entries);
        closed := false;
        r := Done;
      } else {
        Empty();
        closed := true;
        r := Failed;
      }
    }

    method Empty()
      modifies p
      ensures p.Valid() && p.seqs == map[] && p.entries == map[] && p.View() == Memory(map[], map[])
    {
      p.RestoreFrom(map[], map[], map[]);
    }

    method Live(op: Op, ghost limit: nat) returns (r: Result)
      requires Valid(limit) && !op.Lifecycle() && op.NulFreeNames() && limit + 1 < SEQ_LIMIT
      modifies p
      ensures p.Valid() && Below(p.seqs, p.entries, limit + 1) && Apply(old(View()), op) == (View(), r)
    {
      if closed {
        r := NothingOf(op);
      } else if op.Reads() {
        r := Ask(op);
      } else {
        Change(op, limit);
        r := Done;
      }
    }

    method Manage(op: Op, ghost limit: nat) returns (r: Result)
      requires Valid(limit) && op.Lifecycle()
      modifies this, p
      ensures Valid(limit) && Apply(old(View()), op) == (View(), r)
    {
      match op
      case CheckpointTo(dir) => r := Checkpoint(dir, limit);
      case RestoreFrom(dir) => r := Restore(dir, limit);
      case Discard(dir) => r := Remove(dir, limit);
      case Close => closed, r := true, Done;
      case Reset =>
        Empty();
        closed, r := false, Done;
    }

    method Remove(dir: Name, ghost limit: nat) returns (r: Result)
      requires Valid(limit)
      modifies this`saved, this`copies
      ensures Valid(limit) && Apply(old(View()), Discard(dir)) == (View(), r)
    {
      RemovedView(copies, dir);
      saved, copies, r := saved - {dir}, copies - {dir}, Done;
    }

    /** One operation gives the in-memory backend's result. */
    method Do(op: Op, ghost limit: nat) returns (r: Result)
      requires Valid(limit) && op.NulFreeNames() && limit + 1 < SEQ_LIMIT
      modifies this, p
      ensures Valid(limit + 1) && Apply(old(View()), op) == (View(), r)
    {
      CopiesLater(saved, copies, limit);
      if op.Lifecycle() {
        r := Manage(op, limit + 1);
      } else {
        r := Live(op, limit);
      }
    }
  }

  lemma OneMoreOp(ops: seq<Op>, i: nat)
    requires i < |ops|
    ensures State(ops[..i + 1]) == Apply(State(ops[..i]), ops[i]).0
    ensures Results(ops[..i + 1]) == Results(ops[..i]) + [Apply(State(ops[..i]), ops[i]).1]
  {
    assert ops[..i + 1][..i] == ops[..i];
  }

  method NothingOf(op: Op) returns (r: Result)
    ensures r == Nothing(op)
  {
    match op
    case Get(_) => r := Value(None);
    case SnapshotAll(_) => r := All(map[]);
    case GetAll(_) => r := List([]);
    case ValueKeys(_) => r := Names({});
    case ListKeys(_) => r := Names({});
    case RestoreAll(_, _) => r := Failed;
    case _ => r := Done;
  }

  /**
    On every sequence of operations, with checkpoints to any directories, restores from any of
    them, closes and resets at any points, Pebble answers like memory.
   */
  method PebbleRefinesMemory(ops: seq<Op>) returns (rs: seq<Result>)
    requires (forall i :: 0 <= i < |ops| ==> ops[i].NulFreeNames()) && |ops| + 1 < SEQ_LIMIT
    ensures rs == Results(ops)
  {
    var d := new Driver();
    rs := [];
    for i := 0 to |ops|
      invariant d.Valid(i) && fresh(d) && fresh(d.p)
      invariant rs == Results(ops[..i]) && d.View() == State(ops[..i])
    {
      OneMoreOp(ops, i);
      var r := d.Do(ops[i], i);
      rs := rs + [r];
    }
    assert ops[..|ops|] == ops;
  }
}
