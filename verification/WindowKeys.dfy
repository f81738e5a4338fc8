/** The string keys under which window contents are stored. */
module WindowKeys {
  // The string keys under which window contents are stored: record key, window start and window end,
  // separated by slashes, with the bounds in the timestamp format of section 5.6 of RFC 3339.

  import opened Prelude
  import opened WindowAssign
  import opened Windows

  /** A printer and parser of timestamps. */
  datatype Codec = Codec(format: int -> string, parse: string -> Option<int>)

  /** What is relied on: text without slashes that parses back to the same instant. */
  ghost predicate Faithful(c: Codec) {
    forall t :: Fits(t) ==> '/' !in c.format(t) && c.parse(c.format(t)) == Some(t)
  }

  function Print(c: Codec, k: Slot): string {
    k.key + "/" + c.format(k.win.start) + "/" + c.format(k.win.end)
  }

  /** The place of the last slash, or -1. */
  function LastSlash(s: string): (i: int)
    ensures -1 <= i < |s|
    ensures i >= 0 ==> s[i] == '/'
    ensures forall j :: i < j < |s| ==> s[j] != '/'
  {
    if s == "" then -1
    else if s[|s| - 1] == '/' then |s| - 1
    else LastSlash(s[..|s| - 1])
  }

  /** A bound that does not parse reads as the zero time. */
  function ParseBound(c: Codec, s: string): int {
    UnixNano(c.parse(s).GetOr(ZERO_TIME))
  }

  function Parse(c: Codec, s: string): Slot {
    var last := LastSlash(s);
    if last < 0 then Slot("", Win(0, 0))
    else
      var second := LastSlash(s[..last]);
      if second < 0 then Slot("", Win(0, 0))
      else Slot(s[..second], Win(ParseBound(c, s[second + 1..last]), ParseBound(c, s[last + 1..])))
  }

  lemma LastSlashUnique(s: string, i: int)
    requires -1 <= i < |s| && (i >= 0 ==> s[i] == '/') && forall j :: i < j < |s| ==> s[j] != '/'
    ensures LastSlash(s) == i
  {
  }

  /** The scan from the end for the last two slashes. */
  method ParseWindowKey(c: Codec, s: string) returns (k: Slot)
    ensures k == Parse(c, s)
  {
    var lastSlash, secondLastSlash := -1, -1;
    var i := |s| - 1;
    while i >= 0
      invariant -1 <= i < |s|
      invariant secondLastSlash == -1
      invariant lastSlash == -1 ==> forall j :: i < j < |s| ==> s[j] != '/'
      invariant lastSlash != -1 ==> i < lastSlash < |s| && s[lastSlash] == '/' && forall j :: lastSlash < j < |s| ==> s[j] != '/'
      invariant lastSlash != -1 ==> forall j :: i < j < lastSlash ==> s[j] != '/'
    {
      if s[i] == '/' {
        if lastSlash == -1 {
          lastSlash := i;
        } else {
          secondLastSlash := i;
          break;
        }
      }
      i := i - 1;
    }
    if lastSlash == -1 {
      LastSlashUnique(s, -1);
      return Slot("", Win(0, 0));
    }
    LastSlashUnique(s, lastSlash);
    LastSlashUnique(s[..lastSlash], secondLastSlash);
    if secondLastSlash == -1 {
      return Slot("", Win(0, 0));
    }
    return Slot(s[..secondLastSlash],
                Win(ParseBound(c, s[secondLastSlash + 1..lastSlash]), ParseBound(c, s[lastSlash + 1..])));
  }

  predicate SlotFits(k: Slot) { Fits(k.win.start) && Fits(k.win.end) }

  /** A key of any text and two bounds without slashes is taken apart at its last two slashes. */
  lemma ParseFields(c: Codec, key: string, a: string, b: string)
    requires '/' !in a && '/' !in b
    ensures Parse(c, key + "/" + a + "/" + b) == Slot(key, Win(UnixNano(c.parse(a).GetOr(ZERO_TIME)), UnixNano(c.parse(b).GetOr(ZERO_TIME))))
  {
    var s := key + "/" + a + "/" + b;
    var second := |key|;
    var last := second + 1 + |a|;
    assert s[last + 1..] == b && s[second + 1..last] == a && s[..second] == key && s[..last] == key + "/" + a;
    forall j | last < j < |s| ensures s[j] != '/' {
      assert s[j] == b[j - last - 1];
    }
    LastSlashUnique(s, last);
    forall j | second < j < last ensures s[..last][j] != '/' {
      assert s[..last][j] == a[j - second - 1];
    }
    LastSlashUnique(s[..last], second);
  }

  /** Text with fewer than two slashes is no window key. */
  lemma ParseNone(c: Codec, a: string, b: string)
    requires '/' !in a && '/' !in b
    ensures Parse(c, a) == Slot("", Win(0, 0)) && Parse(c, a + "/" + b) == Slot("", Win(0, 0))
  {
    var s := a + "/" + b;
    LastSlashUnique(a, -1);
    forall j | |a| < j < |s| ensures s[j] != '/' {
      assert s[j] == b[j - |a| - 1];
    }
    LastSlashUnique(s, |a|);
    assert s[..|a|] == a;
  }

  /** Parsing undoes printing, whatever the record key contains. */
  lemma ParsePrint(c: Codec, k: Slot)
    requires Faithful(c) && SlotFits(k)
    ensures Parse(c, Print(c, k)) == k
  {
    ParseFields(c, k.key, c.format(k.win.start), c.format(k.win.end));
  }

  /** Printing and parsing of window keys as one value. */
  datatype Names = Names(spell: Slot -> string, parse: string -> Slot) {
    ghost predicate Inverse() {
      forall k :: SlotFits(k) ==> parse(spell(k)) == k
    }

    /** A stored key that is the printed form of a window. */
    ghost predicate Printed(s: string) {
      SlotFits(parse(s)) && spell(parse(s)) == s
    }

    ghost predicate Of(c: Codec) {
      && (forall s {:trigger Parse(c, s)} :: parse(s) == Parse(c, s))
      && (forall k {:trigger Print(c, k)} :: spell(k) == Print(c, k))
    }
  }

  function NamesOf(c: Codec): Names {
    Names(k => Print(c, k), s => Parse(c, s))
  }

  lemma NamesOfInverse(c: Codec)
    requires Faithful(c)
    ensures NamesOf(c).Inverse() && NamesOf(c).Of(c)
  {
    forall k | SlotFits(k) ensures NamesOf(c).parse(NamesOf(c).spell(k)) == k {
      ParsePrint(c, k);
    }
  }
}
