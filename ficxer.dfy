/** `ficxer.py`: the rewrite of the `rdfs:domain` and `rdfs:range` values
    of every `@graph` item into `{"@id": ...}` references. */
module Ficxer {
  import opened Wrappers
  import opened Text
  import opened JsonValue

  const XsdPrefix: string := "xsd:"
  const HttpPrefix: string := "http"
  const ShipBase: string := "https://example.org/ship/"
  const DomainKey: string := "rdfs:domain"
  const RangeKey: string := "rdfs:range"
  const IdKey: string := "@id"

  /** `{"@id": iri}`. */
  function IdRef(iri: string): Json {
    JObj([(IdKey, JStr(iri))])
  }

  /** `fix_ref`: an `xsd:` datatype becomes a reference to itself; a
      capitalised name that is not an `http` IRI becomes a reference into
      the ship namespace; the empty string raises on `value[0]`; anything
      else is kept. */
  function FixRef(v: Json): (r: Result<Json>)
    ensures v.JStr? && StartsWith(v.s, XsdPrefix) ==> r == Ok(IdRef(v.s))
    ensures v.JStr? && v.s == "" ==> r.Err?
    ensures v.JStr? && v.s != "" && !StartsWith(v.s, XsdPrefix) && IsUpperChar(v.s[0]) && !StartsWith(v.s, HttpPrefix)
      ==> r == Ok(IdRef(ShipBase + v.s))
    ensures v.JStr? && v.s != "" && !StartsWith(v.s, XsdPrefix) && !(IsUpperChar(v.s[0]) && !StartsWith(v.s, HttpPrefix))
      ==> r == Ok(v)
    ensures r.Err? ==> v == JStr("")
    ensures r.Ok? && r.value != v ==> r.value.JObj?
    ensures !v.JStr? ==> r == Ok(v)
  {
    match v
    case JStr(s) =>
      if StartsWith(s, XsdPrefix) then Ok(IdRef(s))
      else if s == "" then Err("IndexError")
      else if IsUpperChar(s[0]) && !StartsWith(s, HttpPrefix) then Ok(IdRef(ShipBase + s))
      else Ok(v)
    case _ => Ok(v)
  }

  /** A fixed reference is fixed: it is a dict, or a string `fix_ref`
      keeps. */
  lemma FixRefIdempotent(v: Json)
    requires FixRef(v).Ok?
    ensures FixRef(FixRef(v).value) == FixRef(v)
  {
  }

  /** `if key in item: item[key] = fix_ref(item[key])`, with the errors of
      `in`, `[]` and `fix_ref`. */
  function FixKey(item: Json, key: string): (r: Result<Json>)
    ensures r.Ok? && item.JObj? ==> r.value.JObj? && Keys(r.value.entries) == Keys(item.entries)
    ensures item.JObj? && key !in Keys(item.entries) ==> r == Ok(item)
    ensures item.JObj? && key in Keys(item.entries) && FixRef(Lookup(item.entries, key).value).Ok? ==>
      r.Ok? && Lookup(r.value.entries, key) == Some(FixRef(Lookup(item.entries, key).value).value)
  {
    match PyIn(item, key)
    case Err(e) => Err(e)
    case Ok(false) => Ok(item)
    case Ok(true) =>
      match PyIndex(item, key)
      case Err(e) => Err(e)
      case Ok(v) =>
        match FixRef(v)
        case Err(e) => Err(e)
        case Ok(v2) => AssignLookup(item.entries, key, v2, key); Ok(JObj(Assign(item.entries, key, v2)))
  }

  /** The body of the loop: the domain, then the range. */
  function FixItem(item: Json): Result<Json> {
    match FixKey(item, DomainKey)
    case Err(e) => Err(e)
    case Ok(i1) => FixKey(i1, RangeKey)
  }

  /** Only the domain and the range of an item change. */
  lemma FixItemOtherKeys(item: Json, k: string)
    requires item.JObj? && FixItem(item).Ok?
    requires k != DomainKey && k != RangeKey
    ensures FixItem(item).value.JObj?
    ensures Keys(FixItem(item).value.entries) == Keys(item.entries)
    ensures Lookup(FixItem(item).value.entries, k) == Lookup(item.entries, k)
  {
    var i1 := FixKey(item, DomainKey).value;
    if DomainKey in Keys(item.entries) {
      AssignLookup(item.entries, DomainKey, FixRef(Lookup(item.entries, DomainKey).value).value, k);
    }
    if RangeKey in Keys(i1.entries) {
      AssignLookup(i1.entries, RangeKey, FixRef(Lookup(i1.entries, RangeKey).value).value, k);
    }
  }

  /** A dict whose value under `key` is one `fix_ref` keeps is left as it
      is. */
  lemma FixKeySettled(item: Json, key: string)
    requires item.JObj?
    requires key in Keys(item.entries) ==> FixRef(Lookup(item.entries, key).value) == Ok(Lookup(item.entries, key).value)
    ensures FixKey(item, key) == Ok(item)
  {
    if key in Keys(item.entries) {
      AssignSame(item.entries, key, Lookup(item.entries, key).value);
    }
  }

  /** An item fixed once is left as it is by a second pass. */
  lemma FixItemIdempotent(item: Json)
    requires item.JObj? && FixItem(item).Ok?
    ensures FixItem(FixItem(item).value) == FixItem(item)
  {
    var i1 := FixKey(item, DomainKey).value;
    var i2 := FixItem(item).value;
    if DomainKey in Keys(item.entries) {
      var d := Lookup(item.entries, DomainKey).value;
      FixRefIdempotent(d);
      if RangeKey in Keys(i1.entries) {
        AssignLookup(i1.entries, RangeKey, FixRef(Lookup(i1.entries, RangeKey).value).value, DomainKey);
      }
      assert Lookup(i2.entries, DomainKey) == Lookup(i1.entries, DomainKey);
    }
    FixKeySettled(i2, DomainKey);
    if RangeKey in Keys(i1.entries) {
      FixRefIdempotent(Lookup(i1.entries, RangeKey).value);
    }
    FixKeySettled(i2, RangeKey);
  }

  /** The loop over the items with its body given as `fix`: each item is
      replaced by its fixed version in place; the first error ends the loop. */
  method FixEach<T>(fix: T -> Result<T>, items: array<T>) returns (ok: bool)
    modifies items
    ensures ok ==> forall i :: 0 <= i < items.Length ==> fix(old(items[i])) == Ok(items[i])
    ensures !ok ==> exists i :: 0 <= i < items.Length && fix(old(items[i])).Err?
  {
    ghost var before := items[..];
    for i := 0 to items.Length
      invariant forall m :: 0 <= m < i ==> fix(before[m]) == Ok(items[m])
      invariant forall m :: i <= m < items.Length ==> items[m] == before[m]
    {
      var r := fix(items[i]);
      if r.Err? {
        assert fix(before[i]).Err?;
        return false;
      }
      items[i] := r.value;
    }
    return true;
  }

  /** The loop over the items: each is replaced by its fixed version in
      place; the first error ends the script before anything is written. */
  method FixGraph(items: array<Json>) returns (ok: bool)
    modifies items
    ensures ok ==> forall i :: 0 <= i < items.Length ==> FixItem(old(items[i])) == Ok(items[i])
    ensures !ok ==> exists i :: 0 <= i < items.Length && FixItem(old(items[i])).Err?
  {
    ok := FixEach(FixItem, items);
  }
}
