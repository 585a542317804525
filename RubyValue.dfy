/**
 * The slice of Ruby's value model that the configuration validator relies on:
 * the parsed configuration is a tree of nil, booleans, numbers, strings,
 * symbols, arrays and hashes, with hash keys kept in insertion order.
 */
module RubyValue {

  /** A Ruby value as produced by parsing a JSON configuration with symbolized names. */
  datatype Value =
    | Nil
    | Bool(b: bool)
    | Num(n: int)
    | Str(s: string)
    | Sym(name: string)
    | Arr(items: seq<Value>)
    | Hash(entries: seq<Pair>)

  /** One key/value entry of a Hash; a Hash enumerates its entries in this order. */
  datatype Pair = Pair(key: Value, val: Value)

  /** `not x` is true exactly for nil and false; every other value, "" included, is truthy. */
  predicate Falsy(v: Value) {
    v == Nil || v == Bool(false)
  }

  predicate Truthy(v: Value) {
    !Falsy(v)
  }

  /** Hash#[]: the value stored under the first entry whose key equals `key`, nil if there is none. */
  function Lookup(entries: seq<Pair>, key: Value): Value {
    if entries == [] then Nil
    else if entries[0].key == key then entries[0].val
    else Lookup(entries[1..], key)
  }

  /** Lookup yields the value of the first entry carrying the key. */
  lemma {:induction false} LookupFirst(entries: seq<Pair>, key: Value, i: nat)
    requires i < |entries| && entries[i].key == key
    requires forall j | 0 <= j < i :: entries[j].key != key
    ensures Lookup(entries, key) == entries[i].val
    decreases i
  {
    if i > 0 {
      assert entries[0].key != key;
      assert forall j | 0 <= j < i - 1 :: entries[1..][j] == entries[j + 1];
      LookupFirst(entries[1..], key, i - 1);
    }
  }

  /** Lookup yields nil when no entry carries the key. */
  lemma {:induction false} LookupMissing(entries: seq<Pair>, key: Value)
    requires forall i | 0 <= i < |entries| :: entries[i].key != key
    ensures Lookup(entries, key) == Nil
    decreases |entries|
  {
    if entries != [] {
      assert forall i | 0 <= i < |entries| - 1 :: entries[1..][i] == entries[i + 1];
      LookupMissing(entries[1..], key);
    }
  }

  /**
   * The (k, v) pair that a block `{|k, v| ...}` receives for one element of an
   * Array: an element that is itself an array is destructured into its first
   * two items (nil where missing); any other element becomes k, with v nil.
   */
  function Splat(element: Value): Pair {
    if element.Arr? then
      Pair(if |element.items| > 0 then element.items[0] else Nil,
           if |element.items| > 1 then element.items[1] else Nil)
    else Pair(element, Nil)
  }

  /**
   * The (k, v) pairs, in order, that `each {|k, v| ...}` yields on a Hash or an
   * Array: one per entry of the Hash, one per element of the Array.
   */
  function BlockPairs(v: Value): seq<Pair>
    requires v.Hash? || v.Arr?
  {
    if v.Hash? then v.entries
    else seq(|v.items|, i requires 0 <= i < |v.items| => Splat(v.items[i]))
  }

  /** An Array of `[k, v]` arrays is enumerated exactly like the Hash with those entries. */
  lemma ArrayOfPairsLikeHash(xs: seq<Value>, ps: seq<Pair>)
    requires |xs| == |ps|
    requires forall i | 0 <= i < |xs| :: xs[i] == Arr([ps[i].key, ps[i].val])
    ensures BlockPairs(Arr(xs)) == BlockPairs(Hash(ps))
  {
    var bs := BlockPairs(Arr(xs));
    forall i | 0 <= i < |xs|
      ensures bs[i] == ps[i]
    {
      assert xs[i].items == [ps[i].key, ps[i].val];
    }
  }

  /** Longer arrays are cut to their first two items: `[k, v, ...]` gives the same pair as `[k, v]`. */
  lemma SplatDropsExtraItems(k: Value, v: Value, extra: seq<Value>)
    ensures Splat(Arr([k, v] + extra)) == Splat(Arr([k, v])) == Pair(k, v)
  {
  }

  /** On an Array without array elements, every element is the key of its pair and the value is nil. */
  lemma ScalarArrayPairs(xs: seq<Value>)
    requires forall i | 0 <= i < |xs| :: !xs[i].Arr?
    ensures |BlockPairs(Arr(xs))| == |xs|
    ensures forall i | 0 <= i < |xs| :: BlockPairs(Arr(xs))[i] == Pair(xs[i], Nil)
  {
  }
}
