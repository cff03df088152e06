/** `fixer.py`: the rewrite of a JSON-LD document's `@graph` that replaces
    bare class names by prefixed CURIEs and renames the `prop:hasMember`
    key. */
module Fixer {
  import opened Wrappers
  import opened JsonValue

  /** The bare names of `ID_MAP`, each with the prefix of its CURIE: the
      name `n` of prefix `p` maps to "p:n". */
  const IdTable: seq<(string, string)> := [
    ("PropulsionSystem", "prop"),
    ("PrimeMover", "eng"),
    ("ElectricMotor", "eng"),
    ("MotorOperatingLimits", "eng"),
    ("MotorRatedPoint", "eng"),
    ("MotorEfficiencyPointSet", "eng"),
    ("MotorBearings", "eng"),
    ("MotorFoundationInterface", "eng"),
    ("MotorThermalProtection", "eng"),
    ("MotorSpaceHeater", "eng"),
    ("MotorVFDConstraints", "eng"),
    ("MotorEquivalentCircuit", "eng"),
    ("TransmissionSystem", "prop"),
    ("ShaftingSystem", "prop"),
    ("Gearbox", "comp"),
    ("Coupling", "comp"),
    ("PropulsorSystem", "prop"),
    ("Propeller", "comp"),
    ("Nozzle", "comp"),
    ("HubAndCPMechanism", "comp"),
    ("ThrusterSystem", "prop"),
    ("Sensor", "prop"),
    ("MonitoringEvent", "prop"),
    ("MaterialsRequirements", "mat"),
    ("MaterialSample", "mat"),
    ("MechanicalPropertySet", "mat")
  ]

  /** The one entry of `KEY_MAP`. */
  const OldMemberKey: string := "prop:hasMember"
  const NewMemberKey: string := "hasMember"

  const IdKey: string := "@id"
  const TypeKey: string := "@type"
  const GraphKey: string := "@graph"

  /** Every bare name starts with a capital and every prefix with a small
      letter. */
  lemma TableShape()
    ensures forall i :: 0 <= i < |IdTable| ==> |IdTable[i].0| > 0 && 'A' <= IdTable[i].0[0] <= 'Z'
    ensures forall i :: 0 <= i < |IdTable| ==> |IdTable[i].1| > 0 && 'a' <= IdTable[i].1[0] <= 'z'
  {
  }

  /** `ID_MAP.get(s)`: the CURIE of a bare name, if `s` is one. */
  function IdLookup(s: string): (r: Option<string>)
    ensures r.Some? <==> exists i :: 0 <= i < |IdTable| && IdTable[i].0 == s
    ensures r.Some? ==> exists i :: 0 <= i < |IdTable| && IdTable[i].0 == s && r.value == IdTable[i].1 + ":" + s
  {
    LookupIn(IdTable, s)
  }

  function LookupIn(table: seq<(string, string)>, s: string): (r: Option<string>)
    ensures r.Some? <==> exists i :: 0 <= i < |table| && table[i].0 == s
    ensures r.Some? ==> exists i :: 0 <= i < |table| && table[i].0 == s && r.value == table[i].1 + ":" + s
  {
    if table == [] then None
    else if table[0].0 == s then Some(table[0].1 + ":" + s)
    else
      var r := LookupIn(table[1..], s);
      assert forall i :: 1 <= i < |table| ==> table[1..][i - 1] == table[i];
      r
  }

  /** A mapped CURIE starts with the small letter of its prefix, so it is
      not a bare name again. */
  lemma CurieNotBare(s: string)
    requires IdLookup(s).Some?
    ensures IdLookup(IdLookup(s).value).None?
  {
    var c := IdLookup(s).value;
    var i :| 0 <= i < |IdTable| && IdTable[i].0 == s && c == IdTable[i].1 + ":" + s;
    TableShape();
    assert c[0] == IdTable[i].1[0];
    forall j | 0 <= j < |IdTable|
      ensures IdTable[j].0 != c
    {
      assert IdTable[j].0[0] != c[0];
    }
  }

  /** `KEY_MAP.get(k, k)`. */
  function RenameKey(k: string): (r: string)
    ensures r != OldMemberKey
    ensures k != OldMemberKey ==> r == k
  {
    if k == OldMemberKey then NewMemberKey else k
  }

  /** `ID_MAP[s]` for a bare name, `s` itself otherwise. */
  function MapId(s: string): (r: string)
    ensures IdLookup(r).None?
    ensures IdLookup(s).None? ==> r == s
  {
    match IdLookup(s)
    case Some(c) => CurieNotBare(s); c
    case None => s
  }

  /** `transform`: objects rebuilt key by key, arrays element by element,
      bare-name strings mapped; everything else unchanged. */
  function Transform(j: Json): (r: Json)
    ensures j.JStr? ==> r == JStr(MapId(j.s))
    ensures j.JNull? || j.JBool? || j.JNum? ==> r == j
    ensures j.JArr? ==> r.JArr? && |r.items| == |j.items|
    ensures j.JArr? ==> forall i :: 0 <= i < |j.items| ==> r.items[i] == Transform(j.items[i])
    ensures j.JObj? ==> r.JObj? && DistinctKeys(r.entries)
    decreases j, 1, 0
  {
    match j
    case JObj(es) => JObj(TransformEntries(es, j))
    case JArr(xs) => JArr(seq(|xs|, i requires 0 <= i < |xs| => Transform(xs[i])))
    case JStr(s) => JStr(MapId(s))
    case _ => j
  }

  /** The value stored under the renamed key `k2`: a bare name under `@id`
      or `@type` is mapped directly, any other value is transformed. */
  function EntryValue(k2: string, v: Json): Json
    decreases v, 2, 0
  {
    if k2 == IdKey && v.JStr? && IdLookup(v.s).Some? then JStr(IdLookup(v.s).value)
    else if k2 == TypeKey && v.JStr? && IdLookup(v.s).Some? then JStr(IdLookup(v.s).value)
    else Transform(v)
  }

  /** The `@id` and `@type` branches give what `transform` gives any
      string, so every value is simply transformed. */
  lemma EntryValueIsTransform(k2: string, v: Json)
    ensures EntryValue(k2, v) == Transform(v)
  {
  }

  /** `newd[k2] = v2` for each entry in order, into a fresh dict. */
  function TransformEntries(es: seq<(string, Json)>, ghost parent: Json): (r: seq<(string, Json)>)
    requires forall i :: 0 <= i < |es| ==> es[i].1 < parent
    ensures DistinctKeys(r)
    decreases parent, 0, |es|
  {
    if es == [] then []
    else
      var prev := TransformEntries(es[..|es| - 1], parent);
      var k2 := RenameKey(es[|es| - 1].0);
      AssignDistinct(prev, k2, EntryValue(k2, es[|es| - 1].1));
      Assign(prev, k2, EntryValue(k2, es[|es| - 1].1))
  }

  /** `KEY_MAP.get(k, k)` of every key, in order. */
  function RenamedKeyList(es: seq<(string, Json)>): (ks: seq<string>)
    ensures |ks| == |es|
    ensures forall i :: 0 <= i < |es| ==> ks[i] == RenameKey(es[i].0)
  {
    seq(|es|, i requires 0 <= i < |es| => RenameKey(es[i].0))
  }

  /** The keys of the rebuilt dict are the renamed keys and no other. */
  lemma {:induction false} RenamedKeys(es: seq<(string, Json)>, parent: Json)
    requires forall i :: 0 <= i < |es| ==> es[i].1 < parent
    ensures forall k :: k in Keys(TransformEntries(es, parent)) <==> k in RenamedKeyList(es)
  {
    if es != [] {
      var init, last := es[..|es| - 1], es[|es| - 1];
      var prev := TransformEntries(init, parent);
      var k2 := RenameKey(last.0);
      RenamedKeys(init, parent);
      RenamedKeyListLast(es);
      assert TransformEntries(es, parent) == Assign(prev, k2, EntryValue(k2, last.1));
      AssignKeys(prev, k2, EntryValue(k2, last.1));
    }
  }

  /** The renamed keys of a non-empty list: those of all but the last
      entry, and the last one's. */
  lemma RenamedKeyListLast(es: seq<(string, Json)>)
    requires es != []
    ensures forall k :: k in RenamedKeyList(es) <==>
      k in RenamedKeyList(es[..|es| - 1]) || k == RenameKey(es[|es| - 1].0)
  {
    var ks, ks' := RenamedKeyList(es), RenamedKeyList(es[..|es| - 1]);
    assert ks == ks' + [ks[|es| - 1]];
  }

  /** `prop:hasMember` is gone from every rebuilt dict. */
  lemma OldMemberKeyGone(es: seq<(string, Json)>, parent: Json)
    requires forall i :: 0 <= i < |es| ==> es[i].1 < parent
    ensures OldMemberKey !in Keys(TransformEntries(es, parent))
  {
    RenamedKeys(es, parent);
  }

  /** The rebuilt dict has no more entries than the original. */
  lemma {:induction false} RenamedCount(es: seq<(string, Json)>, parent: Json)
    requires forall i :: 0 <= i < |es| ==> es[i].1 < parent
    ensures |TransformEntries(es, parent)| <= |es|
  {
    if es != [] {
      var init, last := es[..|es| - 1], es[|es| - 1];
      var k2 := RenameKey(last.0);
      RenamedCount(init, parent);
      AssignKeys(TransformEntries(init, parent), k2, EntryValue(k2, last.1));
    }
  }

  /** Without a rename collision, no entry is lost. */
  lemma {:induction false} NoCollisionKeepsCount(es: seq<(string, Json)>, parent: Json)
    requires forall i :: 0 <= i < |es| ==> es[i].1 < parent
    requires forall i, j :: 0 <= i < j < |es| ==> RenameKey(es[i].0) != RenameKey(es[j].0)
    ensures |TransformEntries(es, parent)| == |es|
  {
    if es != [] {
      var init := es[..|es| - 1];
      NoCollisionKeepsCount(init, parent);
      RenamedKeys(init, parent);
      var k2 := RenameKey(es[|es| - 1].0);
      assert k2 !in RenamedKeyList(init) by {
        forall i | 0 <= i < |init|
          ensures RenamedKeyList(init)[i] != k2
        {
          assert init[i] == es[i];
        }
      }
    }
  }

  /** A key takes the transformed value of the last entry renamed to it:
      on a collision the later value wins. */
  lemma {:induction false} LaterValueWins(es: seq<(string, Json)>, parent: Json, i: nat)
    requires forall m :: 0 <= m < |es| ==> es[m].1 < parent
    requires i < |es|
    requires forall j :: i < j < |es| ==> RenameKey(es[j].0) != RenameKey(es[i].0)
    ensures Lookup(TransformEntries(es, parent), RenameKey(es[i].0)) == Some(Transform(es[i].1))
  {
    var init, last := es[..|es| - 1], es[|es| - 1];
    var prev := TransformEntries(init, parent);
    var k2 := RenameKey(last.0);
    AssignLookup(prev, k2, EntryValue(k2, last.1), RenameKey(es[i].0));
    EntryValueIsTransform(k2, last.1);
    if i < |es| - 1 {
      assert init[i] == es[i];
      LaterValueWins(init, parent, i);
    }
  }

  /** Every value of the rebuilt dict is the transform of some original
      value. */
  lemma {:induction false} ValuesTransformed(es: seq<(string, Json)>, parent: Json)
    requires forall i :: 0 <= i < |es| ==> es[i].1 < parent
    ensures forall e :: e in TransformEntries(es, parent) ==> exists i :: 0 <= i < |es| && e.1 == Transform(es[i].1)
  {
    if es != [] {
      var init, last := es[..|es| - 1], es[|es| - 1];
      var k2 := RenameKey(last.0);
      ValuesTransformed(init, parent);
      AssignEntries(TransformEntries(init, parent), k2, EntryValue(k2, last.1));
      EntryValueIsTransform(k2, last.1);
      assert forall i :: 0 <= i < |init| ==> init[i] == es[i];
    }
  }

  /** Distinct keys none of which is renamed, with values `transform`
      leaves alone, are rebuilt as they were. */
  lemma {:induction false} FixedEntries(es: seq<(string, Json)>, parent: Json)
    requires forall i :: 0 <= i < |es| ==> es[i].1 < parent
    requires DistinctKeys(es)
    requires forall i :: 0 <= i < |es| ==> es[i].0 != OldMemberKey && Transform(es[i].1) == es[i].1
    ensures TransformEntries(es, parent) == es
  {
    if es != [] {
      var init, last := es[..|es| - 1], es[|es| - 1];
      assert forall i :: 0 <= i < |init| ==> init[i] == es[i];
      FixedEntries(init, parent);
      assert RenameKey(last.0) == last.0;
      EntryValueIsTransform(last.0, last.1);
      assert last.0 !in Keys(init) by {
        forall i | 0 <= i < |init|
          ensures Keys(init)[i] != last.0
        {
          assert Keys(init)[i] == es[i].0;
        }
      }
      AssignNew(init, last.0, last.1);
      assert TransformEntries(es, parent) == Assign(init, last.0, last.1);
      InitLast(es);
    }
  }

  /** A non-empty list is its first part followed by its last element. */
  lemma InitLast<T>(xs: seq<T>)
    requires xs != []
    ensures xs[..|xs| - 1] + [xs[|xs| - 1]] == xs
  {
  }

  /** `transform` applied twice is `transform` applied once: no CURIE is a
      bare name and no renamed key is renamed again. */
  lemma {:induction false} TransformIdempotent(j: Json)
    ensures Transform(Transform(j)) == Transform(j)
    decreases j
  {
    match j
    case JObj(es) =>
      var r := TransformEntries(es, j);
      RenamedKeys(es, j);
      OldMemberKeyGone(es, j);
      ValuesTransformed(es, j);
      forall m | 0 <= m < |r|
        ensures r[m].0 != OldMemberKey && Transform(r[m].1) == r[m].1
      {
        assert r[m].0 in Keys(r);
        assert r[m] in r;
        var i :| 0 <= i < |es| && r[m].1 == Transform(es[i].1);
        TransformIdempotent(es[i].1);
      }
      FixedEntries(r, JObj(r));
    case JArr(xs) =>
      var ys := Transform(j).items;
      forall i | 0 <= i < |xs|
        ensures Transform(ys[i]) == ys[i]
      {
        TransformIdempotent(xs[i]);
      }
      assert Transform(JArr(ys)).items == ys;
    case _ =>
  }

  // ---------------------------------------------------------------------------
  // The script
  // ---------------------------------------------------------------------------

  /** How the script ends: the fixed document written, an exit code, or an
      exception. */
  datatype Outcome = Wrote(doc: Json) | Exit(code: int) | Raised(error: string)

  /** `main` on the command line `args` (program name included) and the
      loaded document `data`: a wrong argument count exits with 1 before
      anything is read; a document without `@graph` exits with 2; otherwise
      only `@graph` is replaced by its transform. */
  function Run(args: seq<string>, data: Json): (o: Outcome)
    ensures |args| != 3 ==> o == Exit(1)
    ensures |args| == 3 && data.JObj? && GraphKey !in Keys(data.entries) ==> o == Exit(2)
    ensures o.Wrote? ==> data.JObj? && GraphKey in Keys(data.entries)
  {
    if |args| != 3 then Exit(1)
    else
      match PyIn(data, GraphKey)
      case Err(e) => Raised(e)
      case Ok(false) => Exit(2)
      case Ok(true) =>
        match PyIndex(data, GraphKey)
        case Err(e) => Raised(e)
        case Ok(g) => Wrote(JObj(Assign(data.entries, GraphKey, Transform(g))))
  }

  /** The written document has the keys of the input, its `@graph` is the
      transform of the old one, and every other entry, `@context` among
      them, is untouched. */
  lemma OnlyGraphRewritten(args: seq<string>, data: Json, k: string)
    requires Run(args, data).Wrote?
    ensures Keys(Run(args, data).doc.entries) == Keys(data.entries)
    ensures Lookup(Run(args, data).doc.entries, GraphKey) == Some(Transform(PyIndex(data, GraphKey).value))
    ensures k != GraphKey ==> Lookup(Run(args, data).doc.entries, k) == Lookup(data.entries, k)
  {
    AssignLookup(data.entries, GraphKey, Transform(PyIndex(data, GraphKey).value), k);
    AssignLookup(data.entries, GraphKey, Transform(PyIndex(data, GraphKey).value), GraphKey);
  }

  /** Running the script on its own output changes nothing more. */
  lemma RunIdempotent(args: seq<string>, data: Json)
    requires Run(args, data).Wrote?
    ensures Run(args, Run(args, data).doc) == Run(args, data)
  {
    var g := PyIndex(data, GraphKey).value;
    var d := Run(args, data).doc;
    OnlyGraphRewritten(args, data, GraphKey);
    TransformIdempotent(g);
    assert PyIndex(d, GraphKey) == Ok(Transform(g));
    AssignTwice(data.entries, GraphKey, Transform(g));
  }
}
