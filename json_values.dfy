/**
 * Decoded JSON documents as the Python `json` module hands them to the code:
 * `None`, booleans, integers, strings, lists and dicts. A dict is an
 * association list in document order. A decoded object is taken to have
 * distinct keys; `Get` answers with the first entry for a key. Where Python
 * leaves the order of a dict unspecified (`popitem`, `values()` on the
 * interpreters of this code base), the model fixes document order.
 */
module JsonValues {
  import opened Wrappers

  datatype Json =
    | JNull
    | JBool(b: bool)
    | JNum(n: int)
    | JStr(s: string)
    | JList(items: seq<Json>)
    | JObj(entries: seq<(string, Json)>)

  /** `d.get(key)`: the value stored under `key`, if any. */
  function Get(entries: seq<(string, Json)>, key: string): (r: Option<Json>)
    ensures r.Some? ==> (key, r.value) in entries
    ensures r.None? ==> forall i :: 0 <= i < |entries| ==> entries[i].0 != key
  {
    if entries == [] then None
    else if entries[0].0 == key then Some(entries[0].1)
    else Get(entries[1..], key)
  }

  /** `d[key] = v`: overwrites the value in place, or appends a new entry. */
  function Set(entries: seq<(string, Json)>, key: string, v: Json): (r: seq<(string, Json)>)
    ensures Get(r, key) == Some(v)
    ensures forall k :: k != key ==> Get(r, k) == Get(entries, k)
  {
    if entries == [] then [(key, v)]
    else if entries[0].0 == key then [(key, v)] + entries[1..]
    else [entries[0]] + Set(entries[1..], key, v)
  }

  /** The keys of a dict, in insertion order. */
  function Keys(entries: seq<(string, Json)>): (r: seq<string>)
    ensures |r| == |entries|
    ensures forall i :: 0 <= i < |entries| ==> r[i] == entries[i].0
  {
    if entries == [] then [] else [entries[0].0] + Keys(entries[1..])
  }

  /** The values of a dict, in insertion order (`d.values()`). */
  function Values(entries: seq<(string, Json)>): (r: seq<Json>)
    ensures |r| == |entries|
    ensures forall i :: 0 <= i < |entries| ==> r[i] == entries[i].1
  {
    if entries == [] then [] else [entries[0].1] + Values(entries[1..])
  }

  /** Looking up a key in a dict that had one entry appended. */
  lemma {:induction false} GetAppend(entries: seq<(string, Json)>, k: string, v: Json, key: string)
    ensures Get(entries + [(k, v)], key) ==
            if Get(entries, key).Some? then Get(entries, key) else if k == key then Some(v) else None
  {
    if entries != [] {
      assert (entries + [(k, v)])[1..] == entries[1..] + [(k, v)];
      GetAppend(entries[1..], k, v, key);
    }
  }

  /** Assigning a key a dict does not hold appends an entry for it. */
  lemma {:induction false} SetAbsent(entries: seq<(string, Json)>, key: string, v: Json)
    requires Get(entries, key).None?
    ensures Set(entries, key, v) == entries + [(key, v)]
  {
    if entries != [] {
      SetAbsent(entries[1..], key, v);
    }
  }
}
