/** The window operator over a string-keyed list store. */
module WindowOperatorModel {
  import opened Prelude
  import opened WindowAssign
  import opened Windows
  import opened WindowKeys

  type Store = map<string, seq<Rec>>

  ghost predicate Stored(n: Names, store: Store) {
    n.Inverse() && forall s :: s in store ==> n.Printed(s)
  }

  /** The windows a store holds. */
  ghost function Contents(n: Names, store: Store): map<Slot, seq<Rec>>
    requires Stored(n, store)
  {
    map k: Slot | k in (set s | s in store :: n.parse(s)) :: store[n.spell(k)]
  }

  lemma ContentsAt(n: Names, store: Store, k: Slot)
    requires Stored(n, store) && SlotFits(k)
    ensures k in Contents(n, store) <==> n.spell(k) in store
    ensures k in Contents(n, store) ==> Contents(n, store)[k] == store[n.spell(k)]
  {
    assert n.parse(n.spell(k)) == k;
    assert n.spell(k) in store ==> k in (set s | s in store :: n.parse(s));
  }

  lemma ContentsOf(n: Names, store: Store, s: string)
    requires Stored(n, store) && s in store
    ensures n.parse(s) in Contents(n, store) && Contents(n, store)[n.parse(s)] == store[s]
  {
  }

  lemma ContentsFit(n: Names, store: Store, k: Slot)
    requires Stored(n, store) && k in Contents(n, store)
    ensures SlotFits(k) && n.spell(k) in store
  {
  }

  lemma ContentsUpdate(n: Names, store: Store, k: Slot, v: seq<Rec>)
    requires Stored(n, store) && SlotFits(k)
    ensures Stored(n, store[n.spell(k) := v]) && Contents(n, store[n.spell(k) := v]) == Contents(n, store)[k := v]
  {
    var store' := store[n.spell(k) := v];
    assert n.parse(n.spell(k)) == k;
    forall l ensures l in Contents(n, store') <==> l in Contents(n, store)[k := v] {
      Updated(n, store, k, v, l);
    }
    forall l | l in Contents(n, store') ensures Contents(n, store')[l] == Contents(n, store)[k := v][l] {
      Updated(n, store, k, v, l);
    }
  }

  lemma Updated(n: Names, store: Store, k: Slot, v: seq<Rec>, l: Slot)
    requires Stored(n, store) && SlotFits(k) && Stored(n, store[n.spell(k) := v])
    ensures l in Contents(n, store[n.spell(k) := v]) <==> l in Contents(n, store)[k := v]
    ensures l in Contents(n, store[n.spell(k) := v]) ==> Contents(n, store[n.spell(k) := v])[l] == Contents(n, store)[k := v][l]
  {
    var store' := store[n.spell(k) := v];
    if SlotFits(l) {
      ContentsAt(n, store, l);
      ContentsAt(n, store', l);
      assert n.parse(n.spell(k)) == k;
      assert n.parse(n.spell(l)) == l;
    } else {
      if l in Contents(n, store) { ContentsFit(n, store, l); }
      if l in Contents(n, store') { ContentsFit(n, store', l); }
    }
  }

  lemma ContentsRemove(n: Names, store: Store, s: string)
    requires Stored(n, store) && s in store
    ensures Stored(n, store - {s}) && Contents(n, store - {s}) == Contents(n, store) - {n.parse(s)}
  {
    var store', k := store - {s}, n.parse(s);
    forall l ensures l in Contents(n, store') <==> l in Contents(n, store) - {k} {
      Removed(n, store, s, l);
    }
    forall l | l in Contents(n, store') ensures Contents(n, store')[l] == Contents(n, store)[l] {
      Removed(n, store, s, l);
    }
  }

  lemma Removed(n: Names, store: Store, s: string, l: Slot)
    requires Stored(n, store) && s in store && Stored(n, store - {s})
    ensures l in Contents(n, store - {s}) <==> l in Contents(n, store) && l != n.parse(s)
    ensures l in Contents(n, store - {s}) ==> Contents(n, store - {s})[l] == Contents(n, store)[l]
  {
    if SlotFits(l) {
      ContentsAt(n, store, l);
      ContentsAt(n, store - {s}, l);
      assert n.parse(n.spell(l)) == l;
    } else {
      if l in Contents(n, store) { ContentsFit(n, store, l); }
      if l in Contents(n, store - {s}) { ContentsFit(n, store - {s}, l); }
    }
  }

  function Lookup(store: Store, s: string): seq<Rec> { if s in store then store[s] else [] }

  lemma HullAppend(order: seq<Slot>, k: Slot, w: Win)
    ensures var h := Hull(order, w);
            Hull(order + [k], w) == Win(if k.win.start < h.start then k.win.start else h.start, if k.win.end > h.end then k.win.end else h.end)
  {
    assert (order + [k])[..|order|] == order;
  }

  lemma GatherAppend(open: map<Slot, seq<Rec>>, order: seq<Slot>, k: Slot)
    ensures Gather(open, order + [k]) == Gather(open, order) + Get(open, k)
  {
    assert (order + [k])[..|order|] == order;
  }

  /** The keys of a store, in no particular order. */
  method ListKeys(store: Store) returns (keys: seq<string>)
    ensures Lists(keys, store.Keys)
  {
    keys := [];
    var rest := store.Keys;
    while rest != {}
      invariant rest <= store.Keys
      invariant forall i :: 0 <= i < |keys| ==> keys[i] in store.Keys && keys[i] !in rest
      invariant forall s :: s in store.Keys ==> s in keys || s in rest
      invariant forall i, j :: 0 <= i < j < |keys| ==> keys[i] != keys[j]
      decreases |rest|
    {
      var s :| s in rest;
      keys := keys + [s];
      rest := rest - {s};
    }
  }

  /** Every list of a store, key by key. */
  method CopyAll(store: Store) returns (windows: Store)
    ensures windows == store
  {
    windows := map[];
    var keys := ListKeys(store);
    for i := 0 to |keys|
      invariant forall s :: s in windows <==> s in keys[..i]
      invariant forall s :: s in windows ==> s in store && windows[s] == store[s]
    {
      assert keys[..i + 1] == keys[..i] + [keys[i]];
      windows := windows[keys[i] := store[keys[i]]];
    }
    assert keys[..|keys|] == keys;
  }

  /** `strs` are the printed forms of `order`. */
  ghost predicate Spell(n: Names, strs: seq<string>, order: seq<Slot>, store: Store) {
    |strs| == |order| && forall i :: 0 <= i < |order| ==> strs[i] in store && n.parse(strs[i]) == order[i]
  }

  /** `order` lists the members of `target` among the windows of `keys`. */
  ghost predicate Collected(n: Names, keys: seq<string>, target: set<Slot>, order: seq<Slot>) {
    && (forall i :: 0 <= i < |order| ==> order[i] in target && n.spell(order[i]) in keys)
    && (forall i :: 0 <= i < |keys| && n.parse(keys[i]) in target ==> n.parse(keys[i]) in order)
    && (forall i, j :: 0 <= i < j < |order| ==> order[i] != order[j])
  }

  lemma CollectNext(n: Names, store: Store, keys: seq<string>, at: nat, target: set<Slot>, order: seq<Slot>)
    requires Stored(n, store) && at < |keys| && (forall i, j :: 0 <= i < j < |keys| ==> keys[i] != keys[j]) && keys[at] in store
    requires Collected(n, keys[..at], target, order)
    ensures var k := n.parse(keys[at]);
            if k in target then Collected(n, keys[..at + 1], target, order + [k]) else Collected(n, keys[..at + 1], target, order)
  {
    assert keys[..at + 1] == keys[..at] + [keys[at]];
    assert n.Printed(keys[at]);
    assert keys[at] !in keys[..at];
  }

  lemma CollectDone(n: Names, store: Store, keys: seq<string>, target: set<Slot>, order: seq<Slot>)
    requires Stored(n, store) && Lists(keys, store.Keys) && target <= Contents(n, store).Keys && Collected(n, keys, target, order)
    ensures Lists(order, target)
  {
    forall k | k in target ensures k in order {
      ContentsFit(n, store, k);
      assert n.parse(n.spell(k)) == k;
      var i :| 0 <= i < |keys| && keys[i] == n.spell(k);
    }
  }

  /** One step of the search. */
  lemma CollectStep(n: Names, store: Store, order: seq<Slot>, w: Win, s: string, toRemove: seq<string>)
    requires Stored(n, store) && s in store && Spell(n, toRemove, order, store)
    ensures Gather(Contents(n, store), order + [n.parse(s)]) == Gather(Contents(n, store), order) + store[s]
    ensures Spell(n, toRemove + [s], order + [n.parse(s)], store)
  {
    ContentsOf(n, store, s);
    GatherAppend(Contents(n, store), order, n.parse(s));
  }

  function Widened(h: Win, w: Win): Win {
    Win(if w.start < h.start then w.start else h.start, if w.end > h.end then w.end else h.end)
  }

  /** The sessions of `key` that overlap `w` among the stored keys `keys`, with their records and their hull. */
  ghost predicate Found(n: Names, store: Store, keys: seq<string>, key: string, w: Win,
                        order: seq<Slot>, toRemove: seq<string>, merged: seq<Rec>, hull: Win)
    requires Stored(n, store)
  {
    && Collected(n, keys, Touching(Contents(n, store), key, w), order) && Spell(n, toRemove, order, store)
    && merged == Gather(Contents(n, store), order) && hull == Hull(order, w)
  }

  /** One more key has been looked at. */
  lemma FoundNext(n: Names, store: Store, keys: seq<string>, at: nat, key: string, w: Win,
                  order: seq<Slot>, toRemove: seq<string>, merged: seq<Rec>, hull: Win)
    requires Stored(n, store) && Lists(keys, store.Keys) && at < |keys|
    requires Found(n, store, keys[..at], key, w, order, toRemove, merged, hull)
    ensures keys[at] in store
    ensures var s, k := keys[at], n.parse(keys[at]);
            if k.key == key && w.start < k.win.end && w.end > k.win.start then
              Found(n, store, keys[..at + 1], key, w, order + [k], toRemove + [s], merged + store[s], Widened(hull, k.win))
            else Found(n, store, keys[..at + 1], key, w, order, toRemove, merged, hull)
  {
    var s := keys[at];
    ContentsOf(n, store, s);
    CollectNext(n, store, keys, at, Touching(Contents(n, store), key, w), order);
    HullAppend(order, n.parse(s), w);
    CollectStep(n, store, order, w, s, toRemove);
  }

  lemma FoundAll(n: Names, store: Store, keys: seq<string>, key: string, w: Win,
                 order: seq<Slot>, toRemove: seq<string>, merged: seq<Rec>, hull: Win)
    requires Stored(n, store) && Lists(keys, store.Keys) && Found(n, store, keys, key, w, order, toRemove, merged, hull)
    ensures Lists(order, Touching(Contents(n, store), key, w)) && Spell(n, toRemove, order, store)
    ensures merged == Gather(Contents(n, store), order) && hull == Hull(order, w)
  {
    CollectDone(n, store, keys, Touching(Contents(n, store), key, w), order);
  }

  lemma FoundNone(n: Names, store: Store, keys: seq<string>, key: string, w: Win)
    requires Stored(n, store)
    ensures Found(n, store, keys[..0], key, w, [], [], [], w)
  {
  }

  /** Every session of `key` that overlaps `w`: its stored key, its records, and the hull of them all. */
  method Collect(c: Codec, ghost n: Names, store: Store, key: string, w: Win)
    returns (toRemove: seq<string>, merged: seq<Rec>, hull: Win, ghost order: seq<Slot>)
    requires n.Of(c) && Stored(n, store)
    ensures Lists(order, Touching(Contents(n, store), key, w)) && Spell(n, toRemove, order, store)
    ensures merged == Gather(Contents(n, store), order) && hull == Hull(order, w)
  {
    toRemove, merged, order := [], [], [];
    var newStart, newEnd := w.start, w.end;
    var keys := ListKeys(store);
    FoundNone(n, store, keys, key, w);
    for at := 0 to |keys|
      invariant Found(n, store, keys[..at], key, w, order, toRemove, merged, Win(newStart, newEnd))
    {
      var existing := keys[at];
      FoundNext(n, store, keys, at, key, w, order, toRemove, merged, Win(newStart, newEnd));
      var k := ParseWindowKey(c, existing);
      if k.key == key && w.start < k.win.end && w.end > k.win.start {
        if k.win.start < newStart { newStart := k.win.start; }
        if k.win.end > newEnd { newEnd := k.win.end; }
        merged := merged + store[existing];
        toRemove := toRemove + [existing];
        order := order + [k];
      }
    }
    assert keys[..|keys|] == keys;
    hull := Win(newStart, newEnd);
    FoundAll(n, store, keys, key, w, order, toRemove, merged, hull);
  }

  /** Clearing every collected session, one stored key after the other. */
  lemma {:induction false} Cleared(n: Names, store: Store, strs: seq<string>, order: seq<Slot>)
    requires Stored(n, store) && Spell(n, strs, order, store)
    ensures Stored(n, store - StrSet(strs)) && Contents(n, store - StrSet(strs)) == Contents(n, store) - Keys(order)
    decreases |strs|
  {
    if strs == [] {
      assert store - StrSet(strs) == store && Contents(n, store) - Keys(order) == Contents(n, store);
    } else {
      var last := |strs| - 1;
      Cleared(n, store, strs[..last], order[..last]);
      ClearedNext(n, store, strs, order);
    }
  }

  lemma ClearedNext(n: Names, store: Store, strs: seq<string>, order: seq<Slot>)
    requires Stored(n, store) && Spell(n, strs, order, store) && strs != []
    requires var us, ks := strs[..|strs| - 1], order[..|strs| - 1];
             Stored(n, store - StrSet(us)) && Contents(n, store - StrSet(us)) == Contents(n, store) - Keys(ks)
    ensures Stored(n, store - StrSet(strs)) && Contents(n, store - StrSet(strs)) == Contents(n, store) - Keys(order)
  {
    var last := |strs| - 1;
    var s, k, rest := strs[last], order[last], store - StrSet(strs[..last]);
    SetsNext(store, strs, order, Contents(n, store));
    if s in rest {
      ContentsRemove(n, rest, s);
    } else {
      assert s in strs[..last];
      var i :| 0 <= i < last && strs[i] == s;
      assert k in Keys(order[..last]);
      assert rest - {s} == rest;
    }
  }

  lemma SetsNext(store: Store, strs: seq<string>, order: seq<Slot>, open: map<Slot, seq<Rec>>)
    requires |strs| == |order| > 0
    ensures var last := |strs| - 1;
            && store - StrSet(strs) == (store - StrSet(strs[..last])) - {strs[last]}
            && open - Keys(order) == (open - Keys(order[..last])) - {order[last]}
  {
    var last := |strs| - 1;
    assert StrSet(strs) == StrSet(strs[..last]) + {strs[last]};
    assert Keys(order) == Keys(order[..last]) + {order[last]};
  }

  lemma PlaceNext(open: map<Slot, seq<Rec>>, wins: seq<Win>, i: nat, r: Rec)
    requires i < |wins|
    ensures PlaceAll(open, wins[..i + 1], r) == Append(PlaceAll(open, wins[..i], r), Slot(r.key, wins[i]), [r])
  {
    assert wins[..i + 1][..i] == wins[..i];
  }

  lemma AppendTwice(open: map<Slot, seq<Rec>>, k: Slot, a: seq<Rec>, b: seq<Rec>)
    ensures Append(Append(open, k, a), k, b) == Append(open, k, a + b)
  {
    assert Get(open, k) + a + b == Get(open, k) + (a + b);
  }

  /** The windows after the first `i` of `recs` have been appended to `k`. */
  function Appended(open: map<Slot, seq<Rec>>, k: Slot, recs: seq<Rec>, i: nat): map<Slot, seq<Rec>>
    requires i <= |recs|
  {
    if i == 0 then open else Append(open, k, recs[..i])
  }

  lemma AppendNext(open: map<Slot, seq<Rec>>, k: Slot, recs: seq<Rec>, i: nat)
    requires i < |recs|
    ensures Append(Appended(open, k, recs, i), k, [recs[i]]) == Appended(open, k, recs, i + 1)
  {
    assert recs[..i + 1] == recs[..i] + [recs[i]];
    if i == 0 {
      assert recs[..1] == [recs[0]];
    } else {
      AppendTwice(open, k, recs[..i], [recs[i]]);
    }
  }

  ghost predicate NoneEmpty(store: Store) {
    forall s :: s in store ==> store[s] != []
  }

  function StrSet(strs: seq<string>): set<string> { set s | s in strs }

  /** What a window emits when it fires: one folded aggregate with a reducer, every record without one. */
  method EmitWindow(reducer: Option<Reducer>, k: Slot, entries: seq<Rec>) returns (es: seq<Emission>)
    ensures es == Emit(reducer, Fired(k, entries))
    ensures reducer.None? ==> |es| == |entries|
    ensures reducer.None? ==>
              forall i :: 0 <= i < |entries| ==> es[i] == Emission(entries[i].key, entries[i].value, entries[i].ts, k.win)
    ensures reducer.Some? && entries != [] ==>
              var last := entries[|entries| - 1];
              es == [Emission(last.key, Foldl(reducer.value, None, entries).GetOr([]), last.ts, k.win)]
    ensures reducer.Some? && entries == [] ==> es == []
  {
    if reducer.Some? {
      FoldIsFoldl(reducer.value, entries);
    }
    es := [];
    if reducer.Some? {
      if |entries| > 0 {
        var accum: Option<Bytes> := None;
        var last := entries[0];
        for i := 0 to |entries|
          invariant accum == Fold(reducer.value, entries[..i])
          invariant i > 0 ==> last == entries[i - 1]
        {
          assert entries[..i + 1][..i] == entries[..i];
          last := entries[i];
          accum := Some(reducer.value(accum, last));
        }
        assert entries[..|entries|] == entries;
        es := [Emission(last.key, accum.value, last.ts, k.win)];
      }
    } else {
      for i := 0 to |entries|
        invariant es == Each(entries[..i], k.win)
      {
        assert entries[..i + 1][..i] == entries[..i];
        es := es + [Emission(entries[i].key, entries[i].value, entries[i].ts, k.win)];
      }
      assert entries[..|entries|] == entries;
    }
  }

  /** `order` has been fired, in this order, from the windows `open`: what is left in `store`, and what was emitted. */
  ghost predicate Swept(n: Names, reducer: Option<Reducer>, open: map<Slot, seq<Rec>>, order: seq<Slot>, store: Store, es: seq<Emission>) {
    Stored(n, store) && NoneEmpty(store) && Contents(n, store) == open - Keys(order) && es == EmitAll(reducer, FireAll(open, order))
  }

  lemma SweepNext(n: Names, reducer: Option<Reducer>, open: map<Slot, seq<Rec>>, order: seq<Slot>, store: Store, es: seq<Emission>, s: string)
    requires Swept(n, reducer, open, order, store, es) && s in store
    ensures n.parse(s) in open
    ensures Swept(n, reducer, open, order + [n.parse(s)], store - {s}, es + Emit(reducer, Fired(n.parse(s), store[s])))
  {
    ContentsOf(n, store, s);
    ContentsRemove(n, store, s);
    RemoveNext(open, order, n.parse(s));
    FireAllNext(open, order, n.parse(s));
    EmitAppend(reducer, FireAll(open, order), Fired(n.parse(s), store[s]));
  }

  lemma RestStored(keys: seq<string>, at: nat, store: Store)
    requires NoDup(keys) && at < |keys| && forall i :: at <= i < |keys| ==> keys[i] in store
    ensures forall i :: at + 1 <= i < |keys| ==> keys[i] in store - {keys[at]}
  {
  }

  /** The walk has fired the members of `target` among the first `at` keys, and the other keys are still stored. */
  ghost predicate Walked(n: Names, reducer: Option<Reducer>, open: map<Slot, seq<Rec>>, keys: seq<string>, at: nat, target: set<Slot>,
                         order: seq<Slot>, store: Store, es: seq<Emission>) {
    && at <= |keys| && Swept(n, reducer, open, order, store, es) && Collected(n, keys[..at], target, order)
    && (forall i :: at <= i < |keys| ==> keys[i] in store)
  }

  lemma WalkedNext(n: Names, reducer: Option<Reducer>, open: map<Slot, seq<Rec>>, keys: seq<string>, at: nat, target: set<Slot>,
                   order: seq<Slot>, store: Store, es: seq<Emission>)
    requires NoDup(keys) && at < |keys| && Walked(n, reducer, open, keys, at, target, order, store, es)
    ensures keys[at] in store && n.parse(keys[at]) in open
    ensures var s, k := keys[at], n.parse(keys[at]);
            if k in target then
              Walked(n, reducer, open, keys, at + 1, target, order + [k], store - {s}, es + Emit(reducer, Fired(k, store[s])))
            else Walked(n, reducer, open, keys, at + 1, target, order, store, es)
  {
    CollectNext(n, store, keys, at, target, order);
    SweepNext(n, reducer, open, order, store, es, keys[at]);
    RestStored(keys, at, store);
  }

  lemma WalkedNone(n: Names, reducer: Option<Reducer>, all: Store, keys: seq<string>, target: set<Slot>)
    requires Stored(n, all) && NoneEmpty(all) && Lists(keys, all.Keys)
    ensures Walked(n, reducer, Contents(n, all), keys, 0, target, [], all, [])
  {
    assert Contents(n, all) - Keys([]) == Contents(n, all);
  }

  /** The walk over the stored keys: emit what each due window holds, and clear it. */
  method FireEach(c: Codec, ghost n: Names, reducer: Option<Reducer>, all: Store, wm: int, lateness: nat, dueOnly: bool)
    returns (store: Store, es: seq<Emission>, ghost order: seq<Slot>)
    requires n.Of(c) && Stored(n, all) && NoneEmpty(all)
    ensures Lists(order, if dueOnly then Due(Contents(n, all), wm, lateness) else Contents(n, all).Keys)
    ensures Swept(n, reducer, Contents(n, all), order, store, es)
  {
    ghost var open := Contents(n, all);
    ghost var target := if dueOnly then Due(open, wm, lateness) else open.Keys;
    store, es, order := all, [], [];
    var keys := ListKeys(all);
    WalkedNone(n, reducer, all, keys, target);
    for at := 0 to |keys|
      invariant Walked(n, reducer, open, keys, at, target, order, store, es)
    {
      WalkedNext(n, reducer, open, keys, at, target, order, store, es);
      var s := keys[at];
      var k := ParseWindowKey(c, s);
      if !dueOnly || k.win.end + lateness <= wm {
        var more := EmitWindow(reducer, k, store[s]);
        es := es + more;
        store := store - {s};
        order := order + [k];
      }
    }
    assert keys[..|keys|] == keys;
    CollectDone(n, all, keys, target, order);
  }

  /** The key of a window, with its bounds in int64 nanoseconds. */
  function ToWindowKey(key: string, w: Win): (k: Slot)
    ensures SlotFits(k) && (Fits(w.start) && Fits(w.end) <==> k == Slot(key, w))
  {
    Slot(key, Win(UnixNano(w.start), UnixNano(w.end)))
  }

  /** The serialised state of a window operator. */
  datatype Snapshot = Snapshot(wm: int, windows: Store)

  class WindowOperator {
    const codec: Codec
    const assigner: Assigner
    const lateness: nat
    const reducer: Option<Reducer>
    ghost const names: Names

    var store: Store
    var wm: int
    var durable: Option<int>
    var out: seq<Emission>
    ghost var fired: seq<Fired>    // history, with what an earlier run fired before a restore
    ghost var accepted: seq<Rec>
    ghost var before: nat          // how much of `fired` an earlier run emitted

    ghost predicate Valid()
      reads this
    {
      && names.Of(codec) && Stored(names, store) && NoneEmpty(store)
      && before <= |fired| && out == EmitAll(reducer, fired[before..])
      && (durable.Some? ==> durable.value == UnixNano(wm)) && (durable.None? ==> wm == ZERO_TIME)
    }

    /** The operator's state as the value model has it. */
    ghost function View(): State
      reads this
      requires Valid()
    {
      State(Contents(names, store), wm, fired, accepted)
    }

    constructor (codec: Codec, assigner: Assigner, lateness: nat, reducer: Option<Reducer>)
      requires Faithful(codec)
      ensures Valid() && View() == Init() && out == [] && before == 0 && names == NamesOf(codec)
      ensures this.codec == codec && this.assigner == assigner && this.lateness == lateness && this.reducer == reducer
    {
      this.codec, this.assigner, this.lateness, this.reducer := codec, assigner, lateness, reducer;
      names := NamesOf(codec);
      store, wm, durable, out := map[], ZERO_TIME, None, [];
      fired, accepted, before := [], [], 0;
      new;
      NamesOfInverse(codec);
      assert Contents(names, store) == map[];
    }

    method IsTooLate(ts: int) returns (late: bool)
      ensures late == TooLate(lateness, wm, ts)
    {
      if wm == ZERO_TIME {
        return false;
      }
      return ts < wm - lateness;
    }

    /** Append one record to the list stored under the printed form of `k`. */
    method AppendTo(k: Slot, r: Rec)
      requires Valid() && SlotFits(k)
      modifies this`store
      ensures Valid() && Contents(names, store) == Append(old(Contents(names, store)), k, [r])
    {
      var s := Print(codec, k);
      ContentsAt(names, store, k);
      ContentsUpdate(names, store, k, Lookup(store, s) + [r]);
      store := store[s := Lookup(store, s) + [r]];
    }

    method AppendAll(k: Slot, recs: seq<Rec>)
      requires Valid() && SlotFits(k) && recs != []
      modifies this`store
      ensures Valid() && Contents(names, store) == Append(old(Contents(names, store)), k, recs)
    {
      ghost var open := Contents(names, store);
      for i := 0 to |recs|
        invariant Valid() && Contents(names, store) == Appended(open, k, recs, i)
      {
        AppendNext(open, k, recs, i);
        AppendTo(k, recs[i]);
      }
      assert recs[..|recs|] == recs;
    }

    method ClearAll(keys: seq<string>)
      modifies this`store
      ensures store == old(store) - StrSet(keys)
    {
      for i := 0 to |keys|
        invariant store == old(store) - StrSet(keys[..i])
      {
        assert keys[..i + 1] == keys[..i] + [keys[i]];
        store := store - {keys[i]};
      }
      assert keys[..|keys|] == keys;
    }

    /** Append every stored list, record by record, to an empty store. */
    method Refill(windows: Store)
      requires store == map[] && NoneEmpty(windows)
      modifies this`store
      ensures store == windows
    {
      var keys := ListKeys(windows);
      for i := 0 to |keys|
        invariant forall s :: s in store <==> s in keys[..i]
        invariant forall s :: s in store ==> store[s] == windows[s]
      {
        assert keys[..i + 1] == keys[..i] + [keys[i]];
        assert keys[i] !in keys[..i];
        RefillKey(keys[i], windows[keys[i]]);
      }
      assert keys[..|keys|] == keys;
    }

    method RefillKey(key: string, recs: seq<Rec>)
      requires key !in store && recs != []
      modifies this`store
      ensures store == old(store)[key := recs]
    {
      for j := 0 to |recs|
        invariant store == if j == 0 then old(store) else old(store)[key := recs[..j]]
      {
        assert recs[..j + 1] == recs[..j] + [recs[j]];
        store := store[key := Lookup(store, key) + [recs[j]]];
      }
      assert recs[..|recs|] == recs;
    }

    /** Put a record into window `w` of its key, joining the sessions it overlaps; the key has its bounds in int64 nanoseconds. */
    method AssignToWindow(w: Win, r: Rec) returns (ghost order: seq<Slot>)
      requires Valid()
      modifies this`store
      ensures Valid()
      ensures assigner.Fixed? ==> Contents(names, store) == Append(old(Contents(names, store)), Slot(r.key, Wrap(w)), [r])
      ensures assigner.Sessions? ==>
                && Lists(order, Touching(old(Contents(names, store)), r.key, w))
                && Contents(names, store) == PlaceSession(old(Contents(names, store)), w, r, order)
    {
      order := [];
      if assigner.Sessions? {
        var toRemove, merged, hull;
        toRemove, merged, hull, order := Collect(codec, names, store, r.key, w);
        if |toRemove| > 0 {
          Cleared(names, store, toRemove, order);
          ClearAll(toRemove);
          AppendAll(ToWindowKey(r.key, hull), merged + [r]);
          return;
        }
      }
      AppendTo(ToWindowKey(r.key, w), r);
    }

    /** The record in each of its fixed windows, one after the other. */
    method PlaceFixed(r: Rec, wins: seq<Win>)
      requires Valid() && assigner.Fixed?
      modifies this`store
      ensures Valid() && Contents(names, store) == PlaceAll(old(Contents(names, store)), WrapAll(wins), r)
    {
      ghost var open := Contents(names, store);
      ghost var keys := WrapAll(wins);
      for i := 0 to |wins|
        invariant Valid() && Contents(names, store) == PlaceAll(open, keys[..i], r)
      {
        PlaceNext(open, keys, i, r);
        var o := AssignToWindow(wins[i], r);
      }
      assert keys[..|wins|] == keys;
    }

    /** A record that is not too late goes to every window it is assigned to. */
    method HandleDataRecord(r: Rec) returns (ghost order: seq<Slot>)
      requires Valid() && !TooLate(lateness, wm, r.ts) && r.n == |accepted|
      modifies this`store, this`accepted
      ensures Valid() && Step(assigner, lateness, old(View()), Record(r, order)) == Some(View())
    {
      ghost var s0 := View();
      var stored := r.(ts := UnixNano(r.ts));
      if assigner.Fixed? {
        order := [];
        PlaceFixed(stored, assigner.assign(r.ts));
      } else {
        order := AssignToWindow(Session(r.ts, assigner.gap)[0], stored);
      }
      accepted := accepted + [r];
      assert Step(assigner, lateness, s0, Record(r, order)) == Some(View());
    }

    /** Fire the windows that are due, or all of them. */
    method FireSome(dueOnly: bool) returns (ghost order: seq<Slot>)
      requires Valid()
      modifies this`store, this`out, this`fired
      ensures Valid() && View() == Close(old(View()), order)
      ensures Lists(order, if dueOnly then Due(old(View()).open, wm, lateness) else old(View()).open.Keys)
    {
      ghost var open := Contents(names, store);
      var es;
      store, es, order := FireEach(codec, names, reducer, store, wm, lateness, dueOnly);
      EmitMore(reducer, fired, before, FireAll(open, order));
      out := out + es;
      fired := fired + FireAll(open, order);
    }

    /** The watermark never goes back; every window that ended `lateness` before it fires. */
    method HandleWatermark(t: int) returns (ghost order: seq<Slot>)
      requires Valid()
      modifies this`store, this`out, this`fired, this`wm, this`durable
      ensures Valid() && Step(assigner, lateness, old(View()), Watermark(t, order)) == Some(View())
    {
      if t > wm {
        wm := t;
        durable := Some(UnixNano(wm));
      }
      order := FireSome(true);
    }

    /** One data record: dropped when too late, else put into its windows. */
    method OnRecord(r: Rec) returns (ghost order: seq<Slot>)
      requires Valid() && (!TooLate(lateness, wm, r.ts) ==> r.n == |accepted|)
      modifies this`store, this`accepted
      ensures Valid() && Step(assigner, lateness, old(View()), Record(r, order)) == Some(View())
    {
      var late := IsTooLate(r.ts);
      if late {
        return [];
      }
      order := HandleDataRecord(r);
    }

    /** The state as stored in a checkpoint. The watermark is an int64, so an unset one does not survive. */
    method TakeSnapshot() returns (snap: Snapshot)
      requires Valid()
      ensures snap.windows == store && snap.wm == UnixNano(wm) && (snap.wm == wm <==> Fits(wm))
    {
      var windows := CopyAll(store);
      return Snapshot(UnixNano(wm), windows);
    }

    /** Replace the state by a stored one; `fired` and `accepted` are the history that led to it. */
    method Restore(snap: Snapshot, ghost fired: seq<Fired>, ghost accepted: seq<Rec>)
      requires Valid() && Stored(names, snap.windows) && NoneEmpty(snap.windows) && Fits(snap.wm)
      modifies this
      ensures Valid() && store == snap.windows && View() == State(Contents(names, snap.windows), snap.wm, fired, accepted)
      ensures out == [] && before == |fired|
    {
      wm := snap.wm;
      durable := Some(UnixNano(wm));
      this.fired, this.accepted, before := fired, accepted, |fired|;
      out := [];

      var stale := ListKeys(store);
      ClearAll(stale);
      assert store == map[];
      Refill(snap.windows);
    }

    /** The end of the input. */
    method FlushRemaining() returns (ghost order: seq<Slot>)
      requires Valid()
      modifies this`store, this`out, this`fired
      ensures Valid() && Flush(old(View()), order) == Some(View())
    {
      order := FireSome(false);
    }
  }

  /** A snapshot restored into a fresh operator continues from the same state, exactly when the watermark fits an int64. */
  method Handover(op: WindowOperator, next: WindowOperator)
    requires op.Valid() && next.Valid() && op != next && op.codec == next.codec && op.names == next.names
    modifies next
    ensures next.Valid() && op.Valid()
    ensures next.View() == op.View().(wm := UnixNano(op.wm))
    ensures next.View() == op.View() <==> Fits(op.wm)
    ensures next.out == [] && next.before == |next.fired|
  {
    var snap := op.TakeSnapshot();
    next.Restore(snap, op.fired, op.accepted);
  }

  lemma RemoveNext(open: map<Slot, seq<Rec>>, order: seq<Slot>, k: Slot)
    ensures open - Keys(order + [k]) == (open - Keys(order)) - {k}
  {
    assert Keys(order + [k]) == Keys(order) + {k};
  }

  lemma FireAllNext(open: map<Slot, seq<Rec>>, order: seq<Slot>, k: Slot)
    ensures FireAll(open, order + [k]) == FireAll(open, order) + [Fired(k, Get(open, k))]
  {
    assert (order + [k])[..|order|] == order;
  }

  lemma EmitMore(reducer: Option<Reducer>, fs: seq<Fired>, n: nat, gs: seq<Fired>)
    requires n <= |fs|
    ensures EmitAll(reducer, (fs + gs)[n..]) == EmitAll(reducer, fs[n..]) + EmitAll(reducer, gs)
  {
    assert (fs + gs)[n..] == fs[n..] + gs;
    EmitConcat(reducer, fs[n..], gs);
  }

  lemma {:induction false} EmitConcat(reducer: Option<Reducer>, fs: seq<Fired>, gs: seq<Fired>)
    ensures EmitAll(reducer, fs + gs) == EmitAll(reducer, fs) + EmitAll(reducer, gs)
    decreases |gs|
  {
    if gs == [] {
      assert fs + gs == fs;
    } else {
      var n := |gs| - 1;
      var hs, g := gs[..n], gs[n];
      assert gs == hs + [g] && fs + gs == (fs + hs) + [g];
      EmitConcat(reducer, fs, hs);
      EmitAppend(reducer, fs + hs, g);
      EmitAppend(reducer, hs, g);
      Assoc(EmitAll(reducer, fs), EmitAll(reducer, hs), Emit(reducer, g));
    }
  }

  lemma EmitAppend(reducer: Option<Reducer>, fs: seq<Fired>, f: Fired)
    ensures EmitAll(reducer, fs + [f]) == EmitAll(reducer, fs) + Emit(reducer, f)
  {
    assert (fs + [f])[..|fs|] == fs;
  }
}
