/** The Pebble backend on one ordered byte map. */
module PebbleModel {
  import opened Prelude
  import opened ByteOrder
  import opened PebbleKeys

  // ---- The reference: maps in memory ----------------------------------------------------

  datatype Memory = Memory(values: map<Id, Bytes>, lists: map<Id, seq<Bytes>>) {
    function Get(id: Id): Option<Bytes> { if id in values then Some(values[id]) else None }
    function Set(id: Id, v: Bytes): Memory { this.(values := values[id := v]) }
    function Delete(id: Id): Memory { this.(values := values - {id}) }
    function Append(id: Id, v: Bytes): Memory { this.(lists := lists[id := GetAll(id) + [v]]) }
    function GetAll(id: Id): seq<Bytes> { if id in lists then lists[id] else [] }
    function Clear(id: Id): Memory { this.(lists := lists - {id}) }
    function ValueKeys(ns: Bytes): set<Bytes> { set id | id in values && id.ns == ns :: id.key }
    function ListKeys(ns: Bytes): set<Bytes> { set id | id in lists && id.ns == ns :: id.key }
    function SnapshotAll(ns: Bytes): map<Bytes, Bytes> { map k | k in ValueKeys(ns) :: values[Id(ns, k)] }
    function RestoreAll(ns: Bytes, m: map<Bytes, Bytes>): Memory {
      this.(values := (map id | id in values && id.ns != ns :: values[id]) + (map id | id in In(ns, m.Keys) :: m[id.key]))
    }
  }

  function In(ns: Bytes, ks: set<Bytes>): set<Id> { set k | k in ks :: Id(ns, k) }

  /** A value is what was last set, and setting or deleting one touches no other value and no list. */
  lemma ValueLaws(m: Memory, id: Id, v: Bytes, other: Id)
    ensures m.Set(id, v).Get(id) == Some(v) && m.Delete(id).Get(id) == None
    ensures other != id ==> m.Set(id, v).Get(other) == m.Get(other) && m.Delete(id).Get(other) == m.Get(other)
    ensures m.Set(id, v).GetAll(other) == m.GetAll(other) && m.Delete(id).GetAll(other) == m.GetAll(other)
    ensures id.key in m.ValueKeys(id.ns) <==> m.Get(id).Some?
  {
    assert Id(id.ns, id.key) == id;
    assert id in m.values ==> id.key in m.ValueKeys(id.ns);
  }

  /** A list is what was appended since it was last cleared, in order, and touches no other list and no value. */
  lemma ListLaws(m: Memory, id: Id, v: Bytes, other: Id)
    ensures m.Append(id, v).GetAll(id) == m.GetAll(id) + [v] && m.Clear(id).GetAll(id) == []
    ensures other != id ==> m.Append(id, v).GetAll(other) == m.GetAll(other) && m.Clear(id).GetAll(other) == m.GetAll(other)
    ensures m.Append(id, v).Get(other) == m.Get(other) && m.Clear(id).Get(other) == m.Get(other)
    ensures id.key in m.Append(id, v).ListKeys(id.ns) && id.key !in m.Clear(id).ListKeys(id.ns)
    ensures other != id ==> (other.key in m.Append(id, v).ListKeys(other.ns) <==> other.key in m.ListKeys(other.ns))
  {
    assert id in m.Append(id, v).lists;
    assert other in m.lists ==> other.key in m.ListKeys(other.ns);
    assert Id(other.ns, other.key) == other && Id(id.ns, id.key) == id;
  }

  /** Restoring a namespace makes its values exactly the given ones, and a snapshot gives them back. */
  lemma NamespaceLaws(m: Memory, ns: Bytes, vals: map<Bytes, Bytes>, other: Id)
    ensures m.RestoreAll(ns, vals).SnapshotAll(ns) == vals
    ensures other.ns != ns ==> m.RestoreAll(ns, vals).Get(other) == m.Get(other)
    ensures m.RestoreAll(ns, vals).GetAll(other) == m.GetAll(other)
  {
    var r := m.RestoreAll(ns, vals);
    forall k ensures k in r.ValueKeys(ns) <==> k in vals {
      assert k in vals ==> Id(ns, k) in In(ns, vals.Keys);
      assert Id(ns, k) in r.values ==> k in r.ValueKeys(ns);
    }
    forall k | k in vals ensures r.values[Id(ns, k)] == vals[k] {
      assert Id(ns, k) in In(ns, vals.Keys);
    }
  }

  // ---- What the byte map holds -------------------------------------------------------------

  type Db = map<Bytes, Bytes>

  datatype Entry = Entry(n: nat, v: Bytes)

  ghost predicate IsValue(values: map<Id, Bytes>, k: Bytes, v: Bytes) {
    exists id :: id in values && k == ValueKey(id) && v == values[id]
  }

  ghost predicate IsEntry(entries: map<Id, seq<Entry>>, k: Bytes, v: Bytes) {
    exists id, e :: id in entries && e in entries[id] && k == ListKey(id, e.n) && v == e.v
  }

  ghost predicate Increasing(es: seq<Entry>) {
    && (forall i, j :: 0 <= i < j < |es| ==> es[i].n < es[j].n)
    && (forall i :: 0 <= i < |es| ==> es[i].n < SEQ_LIMIT)
  }

  ghost predicate Clean(values: map<Id, Bytes>, entries: map<Id, seq<Entry>>) {
    && (forall id :: id in values ==> NulFree(id.ns))
    && (forall id :: id in entries ==> NulFree(id.ns) && NulFree(id.key) && entries[id] != [] && Increasing(entries[id]))
  }

  ghost predicate Has(db: Db, k: Bytes, v: Bytes) { k in db && db[k] == v }

  /** The byte map holds exactly the given values and list entries. */
  ghost predicate Rep(db: Db, values: map<Id, Bytes>, entries: map<Id, seq<Entry>>) {
    forall k, v :: Has(db, k, v) <==> IsValue(values, k, v) || IsEntry(entries, k, v)
  }

  function Vals(es: seq<Entry>): (vs: seq<Bytes>)
    ensures |vs| == |es| && forall i :: 0 <= i < |es| ==> vs[i] == es[i].v
  {
    if es == [] then [] else Vals(es[..|es| - 1]) + [es[|es| - 1].v]
  }

  function Entries(entries: map<Id, seq<Entry>>, id: Id): seq<Entry> { if id in entries then entries[id] else [] }

  /** The in-memory state that the byte map stands for. */
  function Abstract(values: map<Id, Bytes>, entries: map<Id, seq<Entry>>): Memory {
    Memory(values, map id | id in entries :: Vals(entries[id]))
  }

  // ---- Values ---------------------------------------------------------------------------

  lemma ValueAt(db: Db, values: map<Id, Bytes>, entries: map<Id, seq<Entry>>, id: Id)
    requires Rep(db, values, entries) && Clean(values, entries) && NulFree(id.ns)
    ensures id in values <==> ValueKey(id) in db
    ensures id in values ==> db[ValueKey(id)] == values[id]
  {
    var k := ValueKey(id);
    if id in values {
      assert IsValue(values, k, values[id]);
      assert Has(db, k, values[id]);
    }
    if k in db {
      assert Has(db, k, db[k]);
      NotEntry(entries, id, db[k]);
      var id' :| id' in values && k == ValueKey(id') && db[k] == values[id'];
      ValueKeyInjective(id, id');
    }
  }

  lemma NotEntry(entries: map<Id, seq<Entry>>, id: Id, v: Bytes)
    ensures !IsEntry(entries, ValueKey(id), v)
  {
    forall id', n: nat ensures ValueKey(id) != ListKey(id', n) {
      TagsDiffer(id, id', n);
    }
  }

  lemma SetValue(values: map<Id, Bytes>, id: Id, v: Bytes, k: Bytes, w: Bytes)
    requires NulFree(id.ns) && forall i :: i in values ==> NulFree(i.ns)
    ensures IsValue(values[id := v], k, w) <==> if k == ValueKey(id) then w == v else IsValue(values, k, w)
  {
    var values' := values[id := v];
    if k == ValueKey(id) {
      assert id in values' && values'[id] == v;
      if i :| i in values' && k == ValueKey(i) && w == values'[i] {
        ValueKeyInjective(i, id);
      }
    } else {
      if i :| i in values && k == ValueKey(i) && w == values[i] {
        assert i in values' && values'[i] == w;
      }
    }
  }

  lemma SetRep(db: Db, values: map<Id, Bytes>, entries: map<Id, seq<Entry>>, id: Id, v: Bytes)
    requires Rep(db, values, entries) && Clean(values, entries) && NulFree(id.ns)
    ensures Rep(db[ValueKey(id) := v], values[id := v], entries) && Clean(values[id := v], entries)
  {
    forall k, w ensures Has(db[ValueKey(id) := v], k, w) <==> IsValue(values[id := v], k, w) || IsEntry(entries, k, w) {
      SetValue(values, id, v, k, w);
      NotEntry(entries, id, w);
      assert Has(db, k, w) <==> IsValue(values, k, w) || IsEntry(entries, k, w);
    }
  }

  lemma DeleteValue(values: map<Id, Bytes>, id: Id, k: Bytes, w: Bytes)
    requires NulFree(id.ns) && forall i :: i in values ==> NulFree(i.ns)
    ensures IsValue(values - {id}, k, w) <==> k != ValueKey(id) && IsValue(values, k, w)
  {
    if i :| i in values - {id} && k == ValueKey(i) && w == values[i] {
      if k == ValueKey(id) {
        ValueKeyInjective(i, id);
      }
      assert i in values;
    }
    if k != ValueKey(id) {
      if i :| i in values && k == ValueKey(i) && w == values[i] {
        assert i in values - {id};
      }
    }
  }

  lemma DeleteRep(db: Db, values: map<Id, Bytes>, entries: map<Id, seq<Entry>>, id: Id)
    requires Rep(db, values, entries) && Clean(values, entries) && NulFree(id.ns)
    ensures Rep(db - {ValueKey(id)}, values - {id}, entries) && Clean(values - {id}, entries)
  {
    forall k, w ensures Has(db - {ValueKey(id)}, k, w) <==> IsValue(values - {id}, k, w) || IsEntry(entries, k, w) {
      DeleteValue(values, id, k, w);
      NotEntry(entries, id, w);
      assert Has(db, k, w) <==> IsValue(values, k, w) || IsEntry(entries, k, w);
    }
  }

  // ---- Lists ------------------------------------------------------------------------------

  lemma NotValue(values: map<Id, Bytes>, id: Id, n: nat, v: Bytes)
    ensures !IsValue(values, ListKey(id, n), v)
  {
    forall id' ensures ValueKey(id') != ListKey(id, n) {
      TagsDiffer(id', id, n);
    }
  }

  /** `n` is above every sequence number stored for `id`. */
  ghost predicate Unused(entries: map<Id, seq<Entry>>, id: Id, n: nat) {
    n < SEQ_LIMIT && forall e :: e in Entries(entries, id) ==> e.n < n
  }

  function Added(entries: map<Id, seq<Entry>>, id: Id, n: nat, v: Bytes): map<Id, seq<Entry>> {
    entries[id := Entries(entries, id) + [Entry(n, v)]]
  }

  lemma AddClean(values: map<Id, Bytes>, entries: map<Id, seq<Entry>>, id: Id, n: nat, v: Bytes)
    requires Clean(values, entries) && NulFree(id.ns) && NulFree(id.key) && Unused(entries, id, n)
    ensures Clean(values, Added(entries, id, n, v))
  {
    var es := Entries(entries, id);
    forall i | 0 <= i < |es| ensures es[i].n < n {
      assert es[i] in es;
    }
  }

  lemma EntryKey(values: map<Id, Bytes>, entries: map<Id, seq<Entry>>, id: Id, n: nat, i: Id, e: Entry)
    requires Clean(values, entries) && NulFree(id.ns) && NulFree(id.key) && n < SEQ_LIMIT
    requires i in entries && e in entries[i] && ListKey(id, n) == ListKey(i, e.n)
    ensures i == id && e.n == n
  {
    ListKeyInjective(id, n, i, e.n);
  }

  lemma AddEntry(values: map<Id, Bytes>, entries: map<Id, seq<Entry>>, id: Id, n: nat, v: Bytes, k: Bytes, w: Bytes)
    requires Clean(values, entries) && NulFree(id.ns) && NulFree(id.key) && Unused(entries, id, n)
    ensures IsEntry(Added(entries, id, n, v), k, w) <==> if k == ListKey(id, n) then w == v else IsEntry(entries, k, w)
  {
    if k == ListKey(id, n) {
      AddedHere(values, entries, id, n, v, w);
    } else {
      AddedElsewhere(entries, id, n, v, k, w);
    }
  }

  lemma AddedHere(values: map<Id, Bytes>, entries: map<Id, seq<Entry>>, id: Id, n: nat, v: Bytes, w: Bytes)
    requires Clean(values, entries) && NulFree(id.ns) && NulFree(id.key) && Unused(entries, id, n)
    ensures IsEntry(Added(entries, id, n, v), ListKey(id, n), w) <==> w == v
  {
    var entries' := Added(entries, id, n, v);
    AddClean(values, entries, id, n, v);
    assert id in entries' && Entry(n, v) in entries'[id];
    if i: Id, e: Entry :| i in entries' && e in entries'[i] && ListKey(id, n) == ListKey(i, e.n) && w == e.v {
      EntryKey(values, entries', id, n, i, e);
      assert e in Entries(entries, id) ==> e.n < n;
    }
  }

  lemma AddedElsewhere(entries: map<Id, seq<Entry>>, id: Id, n: nat, v: Bytes, k: Bytes, w: Bytes)
    requires k != ListKey(id, n)
    ensures IsEntry(Added(entries, id, n, v), k, w) <==> IsEntry(entries, k, w)
  {
    var entries' := Added(entries, id, n, v);
    if i: Id, e: Entry :| i in entries && e in entries[i] && k == ListKey(i, e.n) && w == e.v {
      assert i in entries' && e in entries'[i];
    }
    if i: Id, e: Entry :| i in entries' && e in entries'[i] && k == ListKey(i, e.n) && w == e.v {
      assert i in entries && e in entries[i];
    }
  }

  lemma AppendRep(db: Db, values: map<Id, Bytes>, entries: map<Id, seq<Entry>>, id: Id, n: nat, v: Bytes)
    requires Rep(db, values, entries) && Clean(values, entries) && NulFree(id.ns) && NulFree(id.key) && Unused(entries, id, n)
    ensures Rep(db[ListKey(id, n) := v], values, Added(entries, id, n, v)) && Clean(values, Added(entries, id, n, v))
  {
    AddClean(values, entries, id, n, v);
    forall k, w ensures Has(db[ListKey(id, n) := v], k, w) <==> IsValue(values, k, w) || IsEntry(Added(entries, id, n, v), k, w) {
      AddEntry(values, entries, id, n, v, k, w);
      NotValue(values, id, n, w);
      assert Has(db, k, w) <==> IsValue(values, k, w) || IsEntry(entries, k, w);
    }
  }

  /** The keys with the prefix of a list are exactly its entries. */
  lemma UnderPrefix(db: Db, values: map<Id, Bytes>, entries: map<Id, seq<Entry>>, id: Id, k: Bytes)
    requires Rep(db, values, entries) && Clean(values, entries) && NulFree(id.ns) && NulFree(id.key)
    ensures k in db && ListPrefix(id) <= k <==> exists e :: e in Entries(entries, id) && k == ListKey(id, e.n)
    ensures forall e :: e in Entries(entries, id) && k == ListKey(id, e.n) ==> k in db && db[k] == e.v
  {
    forall e | e in Entries(entries, id) && k == ListKey(id, e.n) ensures k in db && db[k] == e.v {
      assert IsEntry(entries, k, e.v);
      assert Has(db, k, e.v);
    }
    if k in db && ListPrefix(id) <= k {
      assert Has(db, k, db[k]);
      PrefixNotValue(values, id, k, db[k]);
      var i: Id, e: Entry :| i in entries && e in entries[i] && k == ListKey(i, e.n) && db[k] == e.v;
      ListPrefixOf(id, i, e.n);
    }
  }

  lemma PrefixNotValue(values: map<Id, Bytes>, id: Id, k: Bytes, v: Bytes)
    requires ListPrefix(id) <= k
    ensures !IsValue(values, k, v)
  {
    forall i ensures k != ValueKey(i) {
      TagsDiffer(i, id, 0);
    }
  }

  function Without(db: Db, prefix: Bytes): Db { map k | k in db && !(prefix <= k) :: db[k] }

  lemma ClearEntry(values: map<Id, Bytes>, entries: map<Id, seq<Entry>>, id: Id, k: Bytes, w: Bytes)
    requires Clean(values, entries) && NulFree(id.ns) && NulFree(id.key)
    ensures IsEntry(entries - {id}, k, w) <==> !(ListPrefix(id) <= k) && IsEntry(entries, k, w)
  {
    if IsEntry(entries - {id}, k, w) {
      var i: Id, e: Entry :| i in entries - {id} && e in entries[i] && k == ListKey(i, e.n) && w == e.v;
      ListPrefixOf(id, i, e.n);
      assert i in entries && e in entries[i];
    }
    if !(ListPrefix(id) <= k) && IsEntry(entries, k, w) {
      KeptEntry(values, entries, id, k, w);
    }
  }

  lemma KeptEntry(values: map<Id, Bytes>, entries: map<Id, seq<Entry>>, id: Id, k: Bytes, w: Bytes)
    requires Clean(values, entries) && NulFree(id.ns) && NulFree(id.key) && !(ListPrefix(id) <= k) && IsEntry(entries, k, w)
    ensures IsEntry(entries - {id}, k, w)
  {
    var i: Id, e: Entry :| i in entries && e in entries[i] && k == ListKey(i, e.n) && w == e.v;
    ListPrefixOf(id, i, e.n);
    assert i in entries - {id};
  }

  lemma ClearRep(db: Db, values: map<Id, Bytes>, entries: map<Id, seq<Entry>>, id: Id)
    requires Rep(db, values, entries) && Clean(values, entries) && NulFree(id.ns) && NulFree(id.key)
    ensures Rep(Without(db, ListPrefix(id)), values, entries - {id}) && Clean(values, entries - {id})
  {
    forall k, w ensures Has(Without(db, ListPrefix(id)), k, w) <==> IsValue(values, k, w) || IsEntry(entries - {id}, k, w) {
      ClearEntry(values, entries, id, k, w);
      if ListPrefix(id) <= k {
        PrefixNotValue(values, id, k, w);
      }
      assert Has(db, k, w) <==> IsValue(values, k, w) || IsEntry(entries, k, w);
    }
  }

  // ---- Replacing a namespace of values ----------------------------------------------------------

  function Others(values: map<Id, Bytes>, ns: Bytes): map<Id, Bytes> {
    map id | id in values && id.ns != ns :: values[id]
  }

  lemma DropValues(values: map<Id, Bytes>, ns: Bytes, k: Bytes, w: Bytes)
    requires NulFree(ns) && forall i :: i in values ==> NulFree(i.ns)
    ensures IsValue(Others(values, ns), k, w) <==> !(ValuePrefix(ns) <= k) && IsValue(values, k, w)
  {
    if i :| i in Others(values, ns) && k == ValueKey(i) && w == values[i] {
      ValuePrefixOf(ns, i);
      assert i in values;
    }
    if i :| i in values && k == ValueKey(i) && w == values[i] {
      ValuePrefixOf(ns, i);
      assert i.ns != ns ==> i in Others(values, ns);
    }
  }

  lemma DropRep(db: Db, values: map<Id, Bytes>, entries: map<Id, seq<Entry>>, ns: Bytes)
    requires Rep(db, values, entries) && Clean(values, entries) && NulFree(ns)
    ensures Rep(Without(db, ValuePrefix(ns)), Others(values, ns), entries) && Clean(Others(values, ns), entries)
  {
    forall k, w ensures Has(Without(db, ValuePrefix(ns)), k, w) <==> IsValue(Others(values, ns), k, w) || IsEntry(entries, k, w) {
      DropValues(values, ns, k, w);
      if ValuePrefix(ns) <= k {
        PrefixNotEntry(entries, ns, k, w);
      }
      assert Has(db, k, w) <==> IsValue(values, k, w) || IsEntry(entries, k, w);
    }
  }

  lemma PrefixNotEntry(entries: map<Id, seq<Entry>>, ns: Bytes, k: Bytes, w: Bytes)
    requires ValuePrefix(ns) <= k
    ensures !IsEntry(entries, k, w)
  {
    forall i, n: nat ensures k != ListKey(i, n) {
      TagsDiffer(Id(ns, []), i, n);
    }
  }
}
