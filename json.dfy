/** JSON values as Python's `json.load` returns them, and the two Python
    operations the JSON-LD scripts apply to them: the `in` test and `[key]`. */
module JsonValue {
  import opened Wrappers
  import opened Text

  /** Objects keep their keys in insertion order, like a Python dict. Numbers
      carry the text `str()` gives for them, so that rendering them is exact. */
  datatype Json =
    | JNull
    | JBool(b: bool)
    | JNum(text: string)
    | JStr(s: string)
    | JArr(items: seq<Json>)
    | JObj(entries: seq<(string, Json)>)

  function Keys(entries: seq<(string, Json)>): (ks: seq<string>)
    ensures |ks| == |entries|
    ensures forall i :: 0 <= i < |entries| ==> ks[i] == entries[i].0
  {
    if entries == [] then [] else [entries[0].0] + Keys(entries[1..])
  }

  /** No key occurs twice: every dict `json.load` builds has this shape. */
  predicate DistinctKeys(entries: seq<(string, Json)>) {
    forall i, j :: 0 <= i < j < |entries| ==> entries[i].0 != entries[j].0
  }

  /** `d.get(k)`: the value stored under `k`. */
  function Lookup(entries: seq<(string, Json)>, k: string): (r: Option<Json>)
    ensures r.None? <==> k !in Keys(entries)
    ensures r.Some? ==> (k, r.value) in entries
  {
    if |entries| == 0 then None
    else if entries[0].0 == k then Some(entries[0].1)
    else
      assert Keys(entries) == [entries[0].0] + Keys(entries[1..]);
      assert entries == [entries[0]] + entries[1..];
      Lookup(entries[1..], k)
  }

  /** `d[k] = v`: an existing key keeps its place and takes the new value; a new
      key goes to the end. */
  function Assign(entries: seq<(string, Json)>, k: string, v: Json): (r: seq<(string, Json)>)
    ensures k in Keys(entries) ==> Keys(r) == Keys(entries)
    ensures k !in Keys(entries) ==> Keys(r) == Keys(entries) + [k]
  {
    if |entries| == 0 then [(k, v)]
    else if entries[0].0 == k then
      assert ([(k, v)] + entries[1..])[1..] == entries[1..];
      [(k, v)] + entries[1..]
    else
      var rest := Assign(entries[1..], k, v);
      assert ([entries[0]] + rest)[1..] == rest;
      [entries[0]] + rest
  }

  /** After `d[k] = v`, `d[k]` is `v` and every other key reads as before. */
  lemma {:induction false} AssignLookup(entries: seq<(string, Json)>, k: string, v: Json, k': string)
    ensures Lookup(Assign(entries, k, v), k') == if k' == k then Some(v) else Lookup(entries, k')
  {
    if |entries| > 0 && entries[0].0 != k {
      AssignLookup(entries[1..], k, v, k');
    }
  }

  /** After `d[k] = v` the keys are the old ones and `k`. */
  lemma AssignKeys(entries: seq<(string, Json)>, k: string, v: Json)
    ensures forall k' :: k' in Keys(Assign(entries, k, v)) <==> k' in Keys(entries) || k' == k
    ensures |Assign(entries, k, v)| <= |entries| + 1
  {
    var ks := Keys(Assign(entries, k, v));
    if k !in Keys(entries) {
      assert ks == Keys(entries) + [k];
    }
  }

  /** Assigning a key the value it holds changes nothing. */
  lemma {:induction false} AssignSame(entries: seq<(string, Json)>, k: string, v: Json)
    requires Lookup(entries, k) == Some(v)
    ensures Assign(entries, k, v) == entries
  {
    var head, tail := entries[0], entries[1..];
    assert entries == [head] + tail;
    if head.0 != k {
      assert Lookup(tail, k) == Some(v);
      AssignSame(tail, k, v);
      assert Assign(entries, k, v) == [head] + Assign(tail, k, v);
    } else {
      assert head == (k, v);
    }
  }

  /** A new key is appended. */
  lemma {:induction false} AssignNew(entries: seq<(string, Json)>, k: string, v: Json)
    requires k !in Keys(entries)
    ensures Assign(entries, k, v) == entries + [(k, v)]
  {
    if |entries| > 0 {
      var rest := entries[1..];
      assert Keys(entries) == [entries[0].0] + Keys(rest);
      assert entries[0].0 == Keys(entries)[0] != k;
      assert k !in Keys(rest);
      AssignNew(rest, k, v);
      assert Assign(entries, k, v) == [entries[0]] + (rest + [(k, v)]);
      assert [entries[0]] + (rest + [(k, v)]) == entries + [(k, v)];
    }
  }

  /** Assigning the same value twice is assigning it once. */
  lemma {:induction false} AssignTwice(entries: seq<(string, Json)>, k: string, v: Json)
    ensures Assign(Assign(entries, k, v), k, v) == Assign(entries, k, v)
  {
    if |entries| > 0 && entries[0].0 != k {
      AssignTwice(entries[1..], k, v);
    }
  }

  /** Every entry after `d[k] = v` was there before or is the new one. */
  lemma {:induction false} AssignEntries(entries: seq<(string, Json)>, k: string, v: Json)
    ensures forall e :: e in Assign(entries, k, v) ==> e in entries || e == (k, v)
  {
    if |entries| > 0 && entries[0].0 != k {
      AssignEntries(entries[1..], k, v);
    }
  }

  /** Assigning keeps the keys distinct. */
  lemma AssignDistinct(entries: seq<(string, Json)>, k: string, v: Json)
    requires DistinctKeys(entries)
    ensures DistinctKeys(Assign(entries, k, v))
  {
    var r := Assign(entries, k, v);
    forall i, j | 0 <= i < j < |r|
      ensures r[i].0 != r[j].0
    {
      assert Keys(r)[i] == r[i].0 && Keys(r)[j] == r[j].0;
    }
  }

  /** Python's `key in container` for a string key: a dict tests its keys, a list
      its elements, a string its substrings; numbers, booleans and None raise. */
  function PyIn(container: Json, key: string): (r: Result<bool>)
    ensures r.Err? <==> (container.JNull? || container.JBool? || container.JNum?)
    ensures container.JObj? ==> r == Ok(key in Keys(container.entries))
  {
    match container
    case JObj(es) => Ok(key in Keys(es))
    case JArr(xs) => Ok(JStr(key) in xs)
    case JStr(s) => Ok(Contains(s, key))
    case _ => Err("TypeError")
  }

  /** Python's `container[key]` for a string key: only a dict holding the key answers. */
  function PyIndex(container: Json, key: string): (r: Result<Json>)
    ensures r.Ok? <==> container.JObj? && key in Keys(container.entries)
  {
    match container
    case JObj(es) =>
      (match Lookup(es, key)
       case Some(v) => Ok(v)
       case None => Err("KeyError"))
    case _ => Err("TypeError")
  }
}
