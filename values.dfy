/**
 * The JSON-like values the API moves around: request bodies, documents
 * fetched from the store and response payloads are all mappings from field
 * names to such values.
 */
module Values {

  /** A field value. `ObjectId` and `DateTime` are the store-assigned values
      (`_id`, `created_at`, `updated_at`) that never appear in a response. */
  datatype Value =
    | Null
    | Bool(b: bool)
    | Int(i: int)
    | Str(s: string)
    | List(items: seq<Value>)
    | ObjectId(hex: string)
    | DateTime(stamp: int)

  /** A record: a dict from field name to value. Key order is not modelled. */
  type Document = map<string, Value>

  datatype Option<+T> = None | Some(value: T)

  datatype Result<+T, +E> = Ok(value: T) | Err(error: E)

  /** Python's `s[:n]`: the first `n` items, or all of `s` when shorter. */
  function Truncate<T>(s: seq<T>, n: nat): (r: seq<T>)
    ensures |r| <= n
    ensures r <= s
    ensures |s| <= n ==> r == s
    ensures |s| > n ==> |r| == n
  {
    if |s| <= n then s else s[..n]
  }

  /** True when every item of the list is a string. */
  predicate AllStrings(items: seq<Value>)
  {
    forall k :: 0 <= k < |items| ==> items[k].Str?
  }

  /** The strings of a list whose items are all strings. */
  function Strings(items: seq<Value>): (r: seq<string>)
    requires AllStrings(items)
    ensures |r| == |items|
    ensures forall k :: 0 <= k < |items| ==> items[k] == Str(r[k])
  {
    if items == [] then [] else [items[0].s] + Strings(items[1..])
  }

  /** The list value holding the given strings. */
  function StringList(ss: seq<string>): (r: Value)
    ensures r.List? && AllStrings(r.items)
    ensures |r.items| == |ss| && forall k :: 0 <= k < |ss| ==> r.items[k] == Str(ss[k])
  {
    List(seq(|ss|, k requires 0 <= k < |ss| => Str(ss[k])))
  }

  /** Reading a list of strings back gives the strings that were written. */
  lemma StringsOfStringList(ss: seq<string>)
    ensures Strings(StringList(ss).items) == ss
  {
    var back := Strings(StringList(ss).items);
    assert |back| == |ss|;
    forall k | 0 <= k < |ss| ensures back[k] == ss[k] {
      assert StringList(ss).items[k] == Str(back[k]);
    }
  }

  /** Writing the strings of a string list gives back the same list. */
  lemma StringListOfStrings(items: seq<Value>)
    requires AllStrings(items)
    ensures StringList(Strings(items)) == List(items)
  {
    assert StringList(Strings(items)).items == items;
  }
}
