/**
 * The JavaScript values an options object can hold, their truthiness,
 * their rendering inside a template literal, and the order in which
 * `Object.entries` lists an object's own properties.
 */
module JsValues {
  import opened JsStrings

  /** `Number.MAX_SAFE_INTEGER`, 2^53 - 1. */
  const MaxSafeInteger: int := 0x1F_FFFF_FFFF_FFFF

  /**
   * The safe integers: every one is a JavaScript number, and every one is
   * below 10^21, so JavaScript prints it in plain decimal, never in
   * exponent form.
   */
  type SafeInteger = n: int | -MaxSafeInteger <= n <= MaxSafeInteger

  /**
   * A JavaScript value. Numbers are restricted to safe integers; an object
   * is the list of its own string-keyed properties in insertion order.
   */
  datatype JsValue =
    | Undefined
    | Null
    | Bool(b: bool)
    | Num(n: SafeInteger)
    | Str(s: string)
    | Obj(props: seq<(string, JsValue)>)

  /** JavaScript truthiness, as used by `if (x)` and `x || y`. */
  predicate Truthy(v: JsValue) {
    match v
    case Undefined => false
    case Null => false
    case Bool(b) => b
    case Num(n) => n != 0
    case Str(s) => |s| > 0
    case Obj(_) => true
  }

  /** What `${v}` inserts into a template literal. */
  function Interpolate(v: JsValue): string {
    match v
    case Undefined => "undefined"
    case Null => "null"
    case Bool(b) => if b then "true" else "false"
    case Num(n) => IntToDecimal(n)
    case Str(s) => s
    case Obj(_) => "[object Object]"
  }

  /** The largest array index is 2^32 - 2. */
  const ArrayIndexBound: nat := 0xFFFF_FFFF

  /** A property key that is an array index: the canonical decimal form of an integer below 2^32 - 1. */
  predicate IsArrayIndex(k: string) {
    IsCanonicalNat(k) && DigitsValue(k) < ArrayIndexBound
  }

  /** The number an array-index key denotes (zero for other keys, which are never compared). */
  function IndexValue(k: string): nat {
    if AllDigits(k) then DigitsValue(k) else 0
  }

  type Entry = (string, JsValue)

  predicate AllIndexKeys(es: seq<Entry>) {
    forall i :: 0 <= i < |es| ==> IsArrayIndex(es[i].0)
  }

  predicate NoIndexKeys(es: seq<Entry>) {
    forall i :: 0 <= i < |es| ==> !IsArrayIndex(es[i].0)
  }

  /** Entries whose keys are array indices, each no larger than the next. */
  predicate AscendingIndices(es: seq<Entry>) {
    && AllIndexKeys(es)
    && forall i :: 0 <= i < |es| - 1 ==> IndexValue(es[i].0) <= IndexValue(es[i + 1].0)
  }

  /** The entries whose keys are array indices, in insertion order. */
  function IndexEntries(es: seq<Entry>): (r: seq<Entry>)
    ensures AllIndexKeys(r)
    ensures |r| <= |es|
  {
    if |es| == 0 then []
    else if IsArrayIndex(es[0].0) then [es[0]] + IndexEntries(es[1..])
    else IndexEntries(es[1..])
  }

  /** The entries whose keys are not array indices, in insertion order. */
  function NamedEntries(es: seq<Entry>): (r: seq<Entry>)
    ensures NoIndexKeys(r)
    ensures |r| <= |es|
  {
    if |es| == 0 then []
    else if IsArrayIndex(es[0].0) then NamedEntries(es[1..])
    else [es[0]] + NamedEntries(es[1..])
  }

  /** Every entry lands in exactly one of the two groups. */
  lemma {:induction false} PartitionEntries(es: seq<Entry>)
    ensures multiset(IndexEntries(es)) + multiset(NamedEntries(es)) == multiset(es)
  {
    if |es| > 0 {
      var h, t := es[0], es[1..];
      PartitionEntries(t);
      assert es == [h] + t;
      assert multiset(es) == multiset{h} + multiset(t);
      if IsArrayIndex(h.0) {
        assert IndexEntries(es) == [h] + IndexEntries(t);
        assert NamedEntries(es) == NamedEntries(t);
      } else {
        assert IndexEntries(es) == IndexEntries(t);
        assert NamedEntries(es) == [h] + NamedEntries(t);
      }
    }
  }

  /** Places an entry into a run ordered by key value, before the first entry whose key is not smaller. */
  function InsertAscending(e: Entry, es: seq<Entry>): seq<Entry>
    decreases |es|
  {
    if |es| == 0 || IndexValue(e.0) <= IndexValue(es[0].0) then [e] + es
    else [es[0]] + InsertAscending(e, es[1..])
  }

  /** Insertion adds exactly the new entry, in front of the run or behind its first entry. */
  lemma {:induction false} InsertAscendingPermutes(e: Entry, es: seq<Entry>)
    ensures var r := InsertAscending(e, es);
      && multiset(r) == multiset(es) + multiset{e}
      && |r| == |es| + 1 && (r[0] == e || (|es| > 0 && r[0] == es[0]))
    decreases |es|
  {
    if |es| > 0 && IndexValue(e.0) > IndexValue(es[0].0) {
      InsertAscendingPermutes(e, es[1..]);
      assert es == [es[0]] + es[1..];
    }
  }

  /** Insertion keeps an ascending run ascending. */
  lemma {:induction false} InsertAscendingOrdered(e: Entry, es: seq<Entry>)
    requires IsArrayIndex(e.0) && AscendingIndices(es)
    ensures AscendingIndices(InsertAscending(e, es))
    decreases |es|
  {
    if |es| > 0 && IndexValue(e.0) > IndexValue(es[0].0) {
      var rest := InsertAscending(e, es[1..]);
      InsertAscendingOrdered(e, es[1..]);
      InsertAscendingPermutes(e, es[1..]);
      assert IndexValue(es[0].0) <= IndexValue(rest[0].0);
      var r := [es[0]] + rest;
      assert r == InsertAscending(e, es);
      assert AllIndexKeys(r) by {
        forall i | 0 <= i < |r| ensures IsArrayIndex(r[i].0) {
          if i > 0 { assert r[i] == rest[i - 1]; }
        }
      }
      forall i | 0 <= i < |r| - 1 ensures IndexValue(r[i].0) <= IndexValue(r[i + 1].0) {
        if i > 0 {
          assert r[i] == rest[i - 1] && r[i + 1] == rest[i];
        } else {
          assert r[0] == es[0] && r[1] == rest[0];
        }
      }
    }
  }

  /** Orders entries by key value (insertion sort). */
  function SortIndices(es: seq<Entry>): seq<Entry>
    decreases |es|
  {
    if |es| == 0 then [] else InsertAscending(es[0], SortIndices(es[1..]))
  }

  /** Sorting permutes its input, and orders a list of array-index entries ascending. */
  lemma SortIndicesCorrect(es: seq<Entry>)
    ensures multiset(SortIndices(es)) == multiset(es)
    ensures AllIndexKeys(es) ==> AscendingIndices(SortIndices(es))
  {
    SortIndicesPermutes(es);
    if AllIndexKeys(es) {
      SortIndicesOrdered(es);
    }
  }

  lemma {:induction false} SortIndicesPermutes(es: seq<Entry>)
    ensures multiset(SortIndices(es)) == multiset(es)
    decreases |es|
  {
    if |es| > 0 {
      var h, t := es[0], es[1..];
      SortIndicesPermutes(t);
      InsertAscendingPermutes(h, SortIndices(t));
      assert es == [h] + t;
    }
  }

  lemma {:induction false} SortIndicesOrdered(es: seq<Entry>)
    requires AllIndexKeys(es)
    ensures AscendingIndices(SortIndices(es))
    decreases |es|
  {
    if |es| > 0 {
      var h, t := es[0], es[1..];
      assert AllIndexKeys(t) by {
        forall i | 0 <= i < |t| ensures IsArrayIndex(t[i].0) { assert t[i] == es[i + 1]; }
      }
      SortIndicesOrdered(t);
      InsertAscendingOrdered(h, SortIndices(t));
    }
  }

  /**
   * `Object.entries(obj)` for an ordinary object: the array-index keys
   * first, in ascending numeric order, then the other string keys in
   * the order they were added.
   */
  function OwnEntries(props: seq<Entry>): (r: seq<Entry>)
    ensures multiset(r) == multiset(props)
    ensures exists n :: 0 <= n <= |r| && AscendingIndices(r[..n]) && r[n..] == NamedEntries(props)
  {
    PartitionEntries(props);
    SortIndicesCorrect(IndexEntries(props));
    var idx := SortIndices(IndexEntries(props));
    var r := idx + NamedEntries(props);
    assert r[..|idx|] == idx && r[|idx|..] == NamedEntries(props);
    r
  }
}
