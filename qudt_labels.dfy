/** `qudt_uri_to_label` of `masteragent.py`: the readable label of a QUDT
    unit, from a fixed table of unit CURIEs or else the last fragment of the
    unit's IRI. */
module QudtLabels {
  import opened Text

  /** The CURIEs with a readable label. */
  const KiloWattKey: string := "unit:KiloW"
  const RevPerSecKey: string := "unit:REV-PER-SEC"
  const RevPerMinKey: string := "unit:REV-PER-MIN"
  const KiloNewtonMetreKey: string := "unit:KiloN-M"
  const KiloNewtonKey: string := "unit:KiloN"
  const CubicMetreKey: string := "unit:M3"
  const MegaPascalKey: string := "unit:MPa"
  const DegreeKey: string := "unit:DEG"
  const MetreKey: string := "unit:M"
  const MillimetreKey: string := "unit:MM"
  const KnotKey: string := "unit:Knot"
  const HertzKey: string := "unit:HZ"

  /** The labels the lemmas below speak of. */
  const KiloNewtonMetreText: string := "kiloNewton-meters (kNm)"
  const MetreText: string := "meters (m)"

  /** The readable labels, tried in this order. */
  const LabelTable: seq<(string, string)> := [
    (KiloWattKey, "kilowatts (kW)"),
    (RevPerSecKey, "revolutions per second (1/s)"),
    (RevPerMinKey, "revolutions per minute (rpm)"),
    (KiloNewtonMetreKey, KiloNewtonMetreText),
    (KiloNewtonKey, "kiloNewtons (kN)"),
    (CubicMetreKey, "cubic meters (m³)"),
    (MegaPascalKey, "megapascals (MPa)"),
    (DegreeKey, "degrees (deg)"),
    (MetreKey, MetreText),
    (MillimetreKey, "millimeters (mm)"),
    (KnotKey, "knots (kn)"),
    (HertzKey, "hertz (Hz)")
  ]

  /** The keys of the table, position by position. */
  lemma TableKeys()
    ensures LabelTable[0].0 == KiloWattKey && LabelTable[1].0 == RevPerSecKey && LabelTable[2].0 == RevPerMinKey
    ensures LabelTable[3].0 == KiloNewtonMetreKey && LabelTable[4].0 == KiloNewtonKey && LabelTable[5].0 == CubicMetreKey
    ensures LabelTable[6].0 == MegaPascalKey && LabelTable[7].0 == DegreeKey && LabelTable[8].0 == MetreKey
    ensures LabelTable[3].1 == KiloNewtonMetreText && LabelTable[8].1 == MetreText
  {
  }

  /** The characters of the pattern `[#/]`. */
  const Separators: set<char> := {'#', '/'}

  /** The position of the first key of `table` that occurs in `txt`, or
      `|table|` when none does. */
  function FirstKey(table: seq<(string, string)>, txt: string): (j: nat)
    ensures j <= |table|
    ensures j < |table| ==> Contains(txt, table[j].0)
    ensures forall i :: 0 <= i < j ==> !Contains(txt, table[i].0)
  {
    if table == [] then 0
    else if Contains(txt, table[0].0) then 0
    else 1 + FirstKey(table[1..], txt)
  }

  /** `re.split(r"[#/]", s)[-1]`: the longest separator-free end of `s`. */
  function LastFragment(s: string): (r: string)
    ensures EndsWith(s, r) && (forall i :: 0 <= i < |r| ==> r[i] !in Separators)
    ensures |r| == |s| || s[|s| - |r| - 1] in Separators
  {
    AfterLast(s, Separators)
  }

  /** `qudt_uri_to_label(u)`: "" for an empty text; otherwise the label of the
      first key, in table order, that occurs in the text; otherwise the last
      `#`- or `/`-separated fragment of the stripped text. */
  function QudtUriToLabel(u: string): (r: string)
    ensures u == "" ==> r == ""
    ensures u != "" && FirstKey(LabelTable, u) < |LabelTable| ==> r == LabelTable[FirstKey(LabelTable, u)].1
    ensures u != "" && FirstKey(LabelTable, u) == |LabelTable| ==>
      && EndsWith(Strip(u), r) && (forall i :: 0 <= i < |r| ==> r[i] !in Separators)
      && (|r| == |Strip(u)| || Strip(u)[|Strip(u)| - |r| - 1] in Separators)
  {
    LabelFrom(LabelTable, u)
  }

  /** The label of `u` under a table of keys and labels. */
  function LabelFrom(table: seq<(string, string)>, u: string): (r: string)
    ensures u == "" ==> r == ""
    ensures u != "" && FirstKey(table, u) < |table| ==> r == table[FirstKey(table, u)].1
    ensures u != "" && FirstKey(table, u) == |table| ==>
      && EndsWith(Strip(u), r) && (forall i :: 0 <= i < |r| ==> r[i] !in Separators)
      && (|r| == |Strip(u)| || Strip(u)[|Strip(u)| - |r| - 1] in Separators)
  {
    if u == "" then ""
    else
      var j := FirstKey(table, u);
      if j < |table| then table[j].1 else FragmentLabel(u)
  }

  /** The label of a text no key occurs in: the last fragment of the
      stripped text. */
  function FragmentLabel(u: string): (r: string)
    ensures EndsWith(Strip(u), r) && (forall i :: 0 <= i < |r| ==> r[i] !in Separators)
    ensures |r| == |Strip(u)| || Strip(u)[|Strip(u)| - |r| - 1] in Separators
  {
    LastFragment(Strip(u))
  }

  /** The label of a text whose first hit is key `j`. */
  lemma LabelOfFirstHit(u: string, j: nat)
    requires u != "" && j < |LabelTable| && Contains(u, LabelTable[j].0)
    requires forall i :: 0 <= i < j ==> !Contains(u, LabelTable[i].0)
    ensures QudtUriToLabel(u) == LabelTable[j].1
  {
    var f := FirstKey(LabelTable, u);
    assert !(f < j) && !(j < f);
  }

  /** A key that `s` does not start with, and whose first character `s`
      holds only at its start, is not in `s`. */
  lemma MissesKey(s: string, key: string, d: nat)
    requires |key| > 0 && d < |key| && (d >= |s| || s[d] != key[d])
    requires forall i :: 0 < i < |s| ==> s[i] != key[0]
    ensures !Contains(s, key)
  {
    OnlyAtStart(s, key);
  }

  lemma KiloNewtonMetreMisses()
    ensures forall i :: 0 <= i < 3 ==> !Contains(KiloNewtonMetreKey, LabelTable[i].0)
  {
    var s := KiloNewtonMetreKey;
    assert forall i :: 0 < i < |s| ==> s[i] != 'u';
    MissesKey(s, KiloWattKey, 9);
    LongerAbsent(s, RevPerSecKey);
    LongerAbsent(s, RevPerMinKey);
    TableKeys();
    forall i | 0 <= i < 3
      ensures !Contains(s, LabelTable[i].0)
    {
      if i == 0 {
        assert LabelTable[i].0 == KiloWattKey;
      } else if i == 1 {
        assert LabelTable[i].0 == RevPerSecKey;
      } else {
        assert i == 2;
      }
    }
  }

  lemma KiloNewtonMetreHits()
    ensures Contains(KiloNewtonMetreKey, LabelTable[3].0)
  {
    TableKeys();
    assert StartsWith(KiloNewtonMetreKey, KiloNewtonMetreKey);
  }

  /** "unit:KiloN-M" is checked before "unit:KiloN", so a kilonewton-metre
      is not read as a kilonewton. */
  lemma KiloNewtonMetreLabel()
    ensures QudtUriToLabel("unit:KiloN-M") == "kiloNewton-meters (kNm)"
  {
    KiloNewtonMetreMisses();
    KiloNewtonMetreHits();
    LabelOfFirstHit(KiloNewtonMetreKey, 3);
    TableKeys();
  }

  lemma MillimetreMisses()
    ensures forall i :: 0 <= i < 8 ==> !Contains(MillimetreKey, LabelTable[i].0)
  {
    var s := MillimetreKey;
    LongerAbsent(s, KiloWattKey);
    LongerAbsent(s, RevPerSecKey);
    LongerAbsent(s, RevPerMinKey);
    LongerAbsent(s, KiloNewtonMetreKey);
    LongerAbsent(s, KiloNewtonKey);
    assert forall i :: 0 < i < |s| ==> s[i] != 'u';
    MissesKey(s, CubicMetreKey, 6);
    LongerAbsent(s, MegaPascalKey);
    LongerAbsent(s, DegreeKey);
    TableKeys();
    forall i | 0 <= i < 8
      ensures !Contains(s, LabelTable[i].0)
    {
      if i < 4 {
        if i == 0 {
          assert LabelTable[i].0 == KiloWattKey;
        } else if i == 1 {
          assert LabelTable[i].0 == RevPerSecKey;
        } else if i == 2 {
          assert LabelTable[i].0 == RevPerMinKey;
        } else {
          assert i == 3;
        }
      } else {
        if i == 4 {
          assert LabelTable[i].0 == KiloNewtonKey;
        } else if i == 5 {
          assert LabelTable[i].0 == CubicMetreKey;
        } else if i == 6 {
          assert LabelTable[i].0 == MegaPascalKey;
        } else {
          assert i == 7;
        }
      }
    }
  }

  lemma MetreHits()
    ensures Contains(MillimetreKey, LabelTable[8].0)
  {
    TableKeys();
    assert StartsWith(MillimetreKey, MetreKey);
  }

  /** "unit:M" is checked before "unit:MM", so millimetres read as metres. */
  lemma MillimetresReadAsMetres()
    ensures QudtUriToLabel("unit:MM") == "meters (m)"
  {
    MillimetreMisses();
    MetreHits();
    LabelOfFirstHit(MillimetreKey, 8);
    TableKeys();
  }

  /** Every key of the table is a `unit:` CURIE, so a text without "unit:"
      falls through to its last path fragment. */
  lemma NoCurieGivesFragment(u: string)
    requires u != "" && !Contains(u, "unit:")
    ensures QudtUriToLabel(u) == AfterLast(Strip(u), Separators)
  {
    KeysAreCuries();
    forall i | 0 <= i < |LabelTable|
      ensures !Contains(u, LabelTable[i].0)
    {
      if Contains(u, LabelTable[i].0) {
        ContainsPrefix(u, LabelTable[i].0, "unit:");
      }
    }
  }

  lemma KeysAreCuries()
    ensures forall i :: 0 <= i < |LabelTable| ==> StartsWith(LabelTable[i].0, "unit:")
  {
  }

  /** The last fragment of a path whose last separator is a "/" at `p` is
      the text after it. */
  lemma FragmentAfterSlash(s: string, p: nat)
    requires p < |s| - 1 && s[p] == '/'
    requires forall i :: p < i < |s| ==> s[i] !in Separators
    ensures AfterLast(s, Separators) == s[p + 1..]
  {
    var r := AfterLast(s, Separators);
    if |r| != |s| - p - 1 {
      assert false;
    }
  }

  /** A text whose only colon, at `c`, does not end a "unit" has no "unit:"
      in it. */
  lemma LoneColon(s: string, c: nat)
    requires forall k :: 0 <= k < |s| && s[k] == ':' ==> k == c
    requires 4 <= c < |s| + 4 ==> s[c - 4] != 'u'
    ensures !Contains(s, "unit:")
  {
    ContainsAt(s, "unit:");
    forall i | 0 <= i && i + 5 <= |s|
      ensures !OccursAt(s, "unit:", i)
    {
      assert s[i..i + 5][0] == s[i] && s[i..i + 5][4] == s[i + 4];
      if i + 4 == c {
        assert s[i] != 'u';
      } else {
        assert s[i + 4] != ':';
      }
    }
  }

  /** The only colon of the full URI follows "http", so no "unit:" occurs
      in it. */
  lemma UriHasNoCurie()
    ensures !Contains("http://qudt.org/vocab/unit/KiloW", "unit:")
  {
    var u := "http://qudt.org/vocab/unit/KiloW";
    assert forall k :: 0 <= k < |u| && u[k] == ':' ==> k == 4;
    LoneColon(u, 4);
  }

  lemma UriFragment()
    ensures AfterLast(Strip("http://qudt.org/vocab/unit/KiloW"), Separators) == "KiloW"
  {
    var u := "http://qudt.org/vocab/unit/KiloW";
    assert !IsSpace(u[0]) && !IsSpace(u[|u| - 1]);
    assert Strip(u) == u;
    assert u[26] == '/';
    assert forall i :: 26 < i < |u| ==> u[i] !in Separators;
    FragmentAfterSlash(u, 26);
    assert u[27..] == "KiloW";
  }

  /** A full QUDT URI is labelled by the unit's own fragment. */
  lemma FullUriLabel()
    ensures QudtUriToLabel("http://qudt.org/vocab/unit/KiloW") == "KiloW"
  {
    UriHasNoCurie();
    NoCurieGivesFragment("http://qudt.org/vocab/unit/KiloW");
    UriFragment();
  }
}
