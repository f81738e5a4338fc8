/** The keys under which the Pebble backend stores values and list entries. */
module PebbleKeys {
  import opened Prelude
  import opened ByteOrder

  const VALUE_TAG: byte := 0x76
  const LIST_TAG: byte := 0x6c
  const SEQ_LIMIT: nat := 0x1_0000_0000_0000_0000

  /** A namespace and a key within it. */
  datatype Id = Id(ns: Bytes, key: Bytes)

  predicate NulFree(b: Bytes) { 0 !in b }

  function ValueKey(id: Id): Bytes { [VALUE_TAG, 0] + id.ns + [0] + id.key }

  function ValuePrefix(ns: Bytes): Bytes { ValueKey(Id(ns, [])) }

  function ListPrefix(id: Id): Bytes { [LIST_TAG, 0] + id.ns + [0] + id.key + [0] }

  function ListKey(id: Id, n: nat): Bytes { ListPrefix(id) + BigEndian(n, 8) }

  function ListNamespace(ns: Bytes): Bytes { [LIST_TAG, 0] + ns + [0] }

  lemma Limit()
    ensures Pow256(8) == SEQ_LIMIT
  {
    assert Pow256(1) == 0x100 && Pow256(2) == 0x1_0000;
    assert Pow256(4) == 0x1_0000_0000;
    assert Pow256(6) == 0x1_0000_0000_0000;
  }

  lemma Zeros(k: nat)
    ensures BigEndian(0, k + 1) == BigEndian(0, k) + [0]
  {
  }

  lemma EightBytes()
    ensures BigEndian(258, 8) == [0, 0, 0, 0, 0, 0, 1, 2]
  {
    Zeros(0);
    Zeros(1);
    Zeros(2);
    Zeros(3);
    Zeros(4);
    Zeros(5);
    assert BigEndian(1, 7) == BigEndian(0, 6) + [1];
    assert BigEndian(258, 8) == BigEndian(1, 7) + [2];
  }

  /** The layout of the stored keys: a tag, the namespace and the key behind NUL bytes, and a list's number in eight bytes. */
  lemma Layout()
    ensures ValueKey(Id([97], [98])) == [0x76, 0, 97, 0, 98]
    ensures ListKey(Id([97], [98]), 258) == [0x6c, 0, 97, 0, 98, 0, 0, 0, 0, 0, 0, 0, 1, 2]
  {
    EightBytes();
  }

  /** The first NUL ends a NUL-free field. */
  lemma {:induction false} FirstNul(a: Bytes, b: Bytes, x: Bytes, y: Bytes)
    requires NulFree(a) && NulFree(b) && a + [0] + x <= b + [0] + y
    ensures a == b && x <= y
  {
    var s, t := a + [0] + x, b + [0] + y;
    assert s[0] == t[0];
    assert s[0] == if a == [] then 0 else a[0];
    assert t[0] == if b == [] then 0 else b[0];
    PrefixTail(s, t);
    if a != [] && b != [] {
      assert s[1..] == a[1..] + [0] + x && t[1..] == b[1..] + [0] + y;
      FirstNul(a[1..], b[1..], x, y);
      assert a == [a[0]] + a[1..] && b == [b[0]] + b[1..];
    } else {
      assert a == [] ==> s[1..] == x;
      assert b == [] ==> t[1..] == y;
    }
  }

  lemma PrefixTail(s: Bytes, t: Bytes)
    requires s <= t && s != []
    ensures s[1..] <= t[1..]
  {
    assert t[1..][..|s| - 1] == t[..|s|][1..];
  }

  lemma ValueKeyInjective(a: Id, b: Id)
    requires NulFree(a.ns) && NulFree(b.ns) && ValueKey(a) == ValueKey(b)
    ensures a == b
  {
    Untag(VALUE_TAG, a.ns + [0] + a.key, b.ns + [0] + b.key);
    FirstNul(a.ns, b.ns, a.key, b.key);
    FirstNul(b.ns, a.ns, b.key, a.key);
  }

  lemma Untag(tag: byte, x: Bytes, y: Bytes)
    ensures [tag, 0] + x <= [tag, 0] + y <==> x <= y
    ensures forall ns, k :: [tag, 0] + ns + [0] + k == [tag, 0] + (ns + [0] + k)
  {
    var s, t := [tag, 0] + x, [tag, 0] + y;
    assert s[2..] == x && t[2..] == y;
    if s <= t {
      assert t[..|s|] == s && t[2..][..|x|] == x;
    }
  }

  /** The values of a namespace are exactly the keys with its prefix. */
  lemma ValuePrefixOf(ns: Bytes, id: Id)
    requires NulFree(ns) && NulFree(id.ns)
    ensures ValuePrefix(ns) <= ValueKey(id) <==> ns == id.ns
    ensures ns == id.ns ==> ValueKey(id)[|ValuePrefix(ns)|..] == id.key
  {
    Untag(VALUE_TAG, ns + [0] + [], id.ns + [0] + id.key);
    if ValuePrefix(ns) <= ValueKey(id) {
      FirstNul(ns, id.ns, [], id.key);
    }
    assert ns == id.ns ==> ValueKey(id) == ValuePrefix(ns) + id.key;
  }

  /** The entries of a list are exactly the keys with its prefix. */
  lemma ListPrefixOf(a: Id, b: Id, n: nat)
    requires NulFree(a.ns) && NulFree(a.key) && NulFree(b.ns) && NulFree(b.key)
    ensures ListPrefix(a) <= ListKey(b, n) <==> a == b
  {
    var x, y := a.key + [0] + [], b.key + [0] + BigEndian(n, 8);
    assert ListPrefix(a) == [LIST_TAG, 0] + (a.ns + [0] + x);
    assert ListKey(b, n) == [LIST_TAG, 0] + (b.ns + [0] + y);
    Untag(LIST_TAG, a.ns + [0] + x, b.ns + [0] + y);
    if ListPrefix(a) <= ListKey(b, n) {
      FirstNul(a.ns, b.ns, x, y);
      FirstNul(a.key, b.key, [], BigEndian(n, 8));
    }
  }

  lemma ListNamespaceOf(ns: Bytes, b: Id, n: nat)
    requires NulFree(ns) && NulFree(b.ns)
    ensures ListNamespace(ns) <= ListKey(b, n) <==> ns == b.ns
    ensures ns == b.ns ==> |ListKey(b, n)| >= |ListNamespace(ns)| + 9 && ListKey(b, n)[|ListNamespace(ns)|..|ListKey(b, n)| - 9] == b.key
  {
    var y := b.key + [0] + BigEndian(n, 8);
    assert ListNamespace(ns) == [LIST_TAG, 0] + (ns + [0] + []);
    assert ListKey(b, n) == [LIST_TAG, 0] + (b.ns + [0] + y);
    Untag(LIST_TAG, ns + [0] + [], b.ns + [0] + y);
    if ListNamespace(ns) <= ListKey(b, n) {
      FirstNul(ns, b.ns, [], y);
    }
    assert ns == b.ns ==> ListKey(b, n) == ListNamespace(ns) + b.key + [0] + BigEndian(n, 8);
  }

  /** Entries sort by sequence number, and the number can be read back. */
  lemma ListKeyOrder(id: Id, m: nat, n: nat)
    requires m < n < SEQ_LIMIT
    ensures Less(ListKey(id, m), ListKey(id, n))
  {
    Limit();
    OrderKept(m, n, 8);
    LessPrefix(ListPrefix(id), BigEndian(m, 8), BigEndian(n, 8));
  }

  lemma ListKeySeq(id: Id, n: nat)
    requires n < SEQ_LIMIT
    ensures |ListKey(id, n)| >= 8 && FromBigEndian(ListKey(id, n)[|ListKey(id, n)| - 8..]) == n
  {
    Limit();
    RoundTrip(n, 8);
    assert ListKey(id, n)[|ListPrefix(id)|..] == BigEndian(n, 8);
  }

  lemma ListKeyInjective(a: Id, m: nat, b: Id, n: nat)
    requires NulFree(a.ns) && NulFree(a.key) && NulFree(b.ns) && NulFree(b.key) && m < SEQ_LIMIT && n < SEQ_LIMIT
    requires ListKey(a, m) == ListKey(b, n)
    ensures a == b && m == n
  {
    assert ListPrefix(a) <= ListKey(a, m);
    ListPrefixOf(a, b, n);
    ListKeySeq(a, m);
    ListKeySeq(b, n);
  }

  lemma TagsDiffer(a: Id, b: Id, n: nat)
    ensures ValueKey(a) != ListKey(b, n) && !(ListPrefix(b) <= ValueKey(a)) && !(ListNamespace(b.ns) <= ValueKey(a))
    ensures !(ValuePrefix(a.ns) <= ListKey(b, n))
  {
    assert ValueKey(a)[0] == VALUE_TAG && ValuePrefix(a.ns)[0] == VALUE_TAG;
    assert ListKey(b, n)[0] == LIST_TAG && ListPrefix(b)[0] == LIST_TAG && ListNamespace(b.ns)[0] == LIST_TAG;
  }

  /** Every prefix starts with a tag, so it has an upper bound. */
  lemma Room(id: Id)
    ensures HasRoom(ListPrefix(id)) && HasRoom(ValuePrefix(id.ns)) && HasRoom(ListNamespace(id.ns))
  {
    assert ListPrefix(id)[0] == LIST_TAG && ValuePrefix(id.ns)[0] == VALUE_TAG && ListNamespace(id.ns)[0] == LIST_TAG;
  }

  /** Keys with a NUL are not kept apart: one list's prefix can cover another list's entry. */
  lemma NulCollides(ns: Bytes, key: Bytes, rest: Bytes, n: nat)
    ensures ListPrefix(Id(ns, key)) <= ListKey(Id(ns, key + [0] + rest), n)
  {
    assert ListKey(Id(ns, key + [0] + rest), n) == ListPrefix(Id(ns, key)) + rest + [0] + BigEndian(n, 8);
  }
}
