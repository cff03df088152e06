/** The unit rules of `masteragentcorrected.py`: reading a unit token from a
    QUDT unit or from a variable or candidate name, and scoring how well two
    units agree. */
module Units {
  import opened Wrappers
  import opened Text

  /** A unit compatibility below this makes the agent overrule the LLM. */
  const CompatFloor: real := 0.7

  /** `UNIT_EQUIV`, in the dict's insertion order. */
  const UnitEquiv: seq<(string, set<string>)> := [
    ("rpm", {"REV-PER-MIN", "RPM"}),
    ("rev/s", {"REV-PER-SEC", "RPS"}),
    ("kN", {"KiloN", "KN"}),
    ("kNm", {"KiloN-M", "KNM"}),
    ("m", {"M"}),
    ("Nm3", {"NM3", "Normal_m3"}),
    ("degC", {"DEG", "C"})]

  /** The keys of `UNIT_EQUIV`. */
  const CanonicalUnits: set<string> := {"rpm", "rev/s", "kN", "kNm", "m", "Nm3", "degC"}

  /** The key of the first entry of `table` whose variants hold `u`, else "". */
  function FirstCanonical(u: string, table: seq<(string, set<string>)>): (c: string)
    ensures (forall i :: 0 <= i < |table| ==> u !in table[i].1) ==> c == ""
    ensures (exists i :: 0 <= i < |table| && u in table[i].1) ==>
      exists i :: 0 <= i < |table| && u in table[i].1 && c == table[i].0 && forall j :: 0 <= j < i ==> u !in table[j].1
  {
    if table == [] then ""
    else if u in table[0].1 then table[0].0
    else
      var c := FirstCanonical(u, table[1..]);
      assert forall i :: 1 <= i < |table| ==> table[i] == table[1..][i - 1];
      c
  }

  /** `u.replace("unit:", "").replace("#", "").upper()`. */
  function UnitKey(u: string): (k: string)
    ensures NoLowerChar(k)
  {
    var k := Upper(ReplaceAll(ReplaceAll(u, "unit:", ""), "#", ""));
    UpperHasNoLower(ReplaceAll(ReplaceAll(u, "unit:", ""), "#", ""));
    k
  }

  /** `normalize_unit_token(u)`: "" for an empty token, otherwise the key of
      the first equivalence class holding the upper-cased token, or "". */
  function NormalizeUnitToken(u: string): (r: string)
    ensures r == "" || r in CanonicalUnits
    ensures r != "" <==> u != "" && exists i :: 0 <= i < |UnitEquiv| && UnitKey(u) in UnitEquiv[i].1
  {
    if u == "" then ""
    else
      CanonicalKeys();
      FirstCanonical(UnitKey(u), UnitEquiv)
  }

  /** Every key of `UNIT_EQUIV` is a non-empty canonical unit. */
  lemma CanonicalKeys()
    ensures forall i :: 0 <= i < |UnitEquiv| ==> UnitEquiv[i].0 in CanonicalUnits && UnitEquiv[i].0 != ""
  {
  }

  /** The variants of `UNIT_EQUIV` written without lower-case letters. */
  const UpperVariants: set<string> := {"REV-PER-MIN", "RPM", "REV-PER-SEC", "RPS", "KN", "KNM", "M", "NM3", "DEG", "C"}

  /** The key is upper-cased before the lookup, so the mixed-case variants
      `KiloN`, `KiloN-M` and `Normal_m3` never match: every recognised key
      is one of the upper-case variants. */
  lemma MixedCaseVariantsUnreachable(u: string)
    ensures NormalizeUnitToken(u) != "" ==> UnitKey(u) in UpperVariants
  {
    if NormalizeUnitToken(u) != "" {
      UpperVariantsOnly(UnitKey(u));
    }
  }

  /** A variant without lower-case letters is an upper-case variant. */
  lemma UpperVariantsOnly(k: string)
    requires NoLowerChar(k) && exists i :: 0 <= i < |UnitEquiv| && k in UnitEquiv[i].1
    ensures k in UpperVariants
  {
    assert k != "KiloN" by { assert IsLowerChar("KiloN"[1]); }
    assert k != "KiloN-M" by { assert IsLowerChar("KiloN-M"[1]); }
    assert k != "Normal_m3" by { assert IsLowerChar("Normal_m3"[1]); }
  }

  /** The QUDT name of the kilonewton. */
  const QudtKiloNewton: string := "unit:KiloN"

  /** The QUDT unit `unit:KiloN` is not recognised. */
  lemma KiloNewtonNotRecognised()
    ensures NormalizeUnitToken(QudtKiloNewton) == ""
  {
    KiloNewtonKey();
    assert "KILON" != "KiloN" by { assert "KILON"[1] != "KiloN"[1]; }
    FiveLetterVariants("KILON");
  }

  /** The only five-letter variant is `KiloN`. */
  lemma FiveLetterVariants(k: string)
    requires |k| == 5 && k != "KiloN"
    ensures forall i :: 0 <= i < |UnitEquiv| ==> k !in UnitEquiv[i].1
  {
  }

  /** The key of `unit:KiloN` is `KILON`. */
  lemma KiloNewtonKey()
    ensures UnitKey(QudtKiloNewton) == "KILON"
  {
    KiloNTail();
    PrefixOnlyKey("KiloN");
  }

  /** `unit:KiloN` is `unit:` before `KiloN`, whose letters upper-case to
      `KILON` and hold no `u` and no `#`. */
  lemma KiloNTail()
    ensures QudtKiloNewton == "unit:" + "KiloN" && Upper("KiloN") == "KILON"
    ensures forall i :: 0 <= i < |"KiloN"| ==> "KiloN"[i] != 'u' && "KiloN"[i] != '#'
  {
  }

  /** A token that is `unit:` followed by a name with no `u` and no `#` keys
      on the upper-cased name. */
  lemma PrefixOnlyKey(t: string)
    requires forall i :: 0 <= i < |t| ==> t[i] != 'u' && t[i] != '#'
    ensures UnitKey("unit:" + t) == Upper(t)
  {
    var s := "unit:" + t;
    assert s[5..] == t;
    FirstCharAbsent(t, "unit:");
    FirstCharAbsent(t, "#");
    assert StartsWith(s, "unit:");
    assert ReplaceAll(s, "unit:", "") == t;
  }

  /** `infer_unit_from_varname(name)`: the first rule, in the order written,
      whose fragment occurs in the lower-cased name. */
  function InferUnitFromVarname(name: Option<string>): (r: string)
    ensures r == "" || r in CanonicalUnits
    ensures name.None? || name == Some("") ==> r == ""
  {
    if name.None? || name.value == "" then ""
    else
      var n := Lower(name.value);
      if Contains(n, "_rpm") then "rpm"
      else if Contains(n, "_rps") || Contains(n, "revpersec") then "rev/s"
      else if Contains(n, "_knm") then "kNm"
      else if Contains(n, "_kn") then "kN"
      else if Contains(n, "_nm3") then "Nm3"
      else if Contains(n, "_m") then "m"
      else if Contains(n, "degc") || Contains(n, "_c") then "degC"
      else ""
  }

  /** `_knm` is tested before `_kn`: a name holding `_knm` is never read as kN. */
  lemma KnmBeforeKn(name: string)
    requires Contains(Lower(name), "_knm")
    ensures InferUnitFromVarname(Some(name)) != "kN"
  {
  }

  /** A variable name that is not a length. */
  const EngineMode: string := "Engine_Mode"

  /** Any `_m` fragment reads as metres, whatever follows it. */
  lemma UnderscoreMReadsAsMetres()
    ensures InferUnitFromVarname(Some(EngineMode)) == "m"
  {
    var n := Lower(EngineMode);
    EngineModeShape();
    ContainsSlice(n, "_m", 6);
    NoUnderscoreRule(n);
    FirstCharAbsent(n, "revpersec");
  }

  /** `engine_mode` has `_m` at 6, no `r`, and no `_` before anything but `m`. */
  lemma EngineModeShape()
    ensures var n := Lower(EngineMode);
      OccursAt(n, "_m", 6) && (forall i :: 0 <= i < |n| ==> n[i] != 'r')
      && (forall i :: 0 <= i < |n| - 1 && n[i] == '_' ==> n[i + 1] == 'm')
  {
    assert Lower(EngineMode) == "engine_mode";
  }

  /** A name whose `_` is always followed by `m` holds none of the `_` rules
      tried before the metre rule. */
  lemma NoUnderscoreRule(n: string)
    requires forall i :: 0 <= i < |n| - 1 && n[i] == '_' ==> n[i + 1] == 'm'
    ensures !Contains(n, "_rpm") && !Contains(n, "_rps") && !Contains(n, "_knm") && !Contains(n, "_kn") && !Contains(n, "_nm3")
  {
    FirstPairAbsent(n, "_rpm");
    FirstPairAbsent(n, "_rps");
    FirstPairAbsent(n, "_knm");
    FirstPairAbsent(n, "_kn");
    FirstPairAbsent(n, "_nm3");
  }

  /** One test of `unit_from_candidate_id` on the lower-cased id: a suffix
      (`endswith`) or a part (`in`), and the unit it gives. */
  datatype IdRule = Suffix(text: string, unit: string) | Part(text: string, unit: string)

  /** The tests of `unit_from_candidate_id`, in the order written. */
  const IdRules: seq<IdRule> := [
    Suffix("_rpm", "rpm"),
    Part("revpersec", "rev/s"),
    Suffix("_knm", "kNm"),
    Suffix("_kn", "kN"),
    Suffix("_m", "m"),
    Suffix("_nm3", "Nm3"),
    Suffix("_degc", "degC")]

  predicate Fires(rule: IdRule, c: string) {
    match rule
    case Suffix(t, _) => EndsWith(c, t)
    case Part(t, _) => Contains(c, t)
  }

  /** The unit of the first rule that fires on `c`, "" when none does. */
  function FirstFiring(rules: seq<IdRule>, c: string): string {
    if rules == [] then ""
    else if Fires(rules[0], c) then rules[0].unit
    else FirstFiring(rules[1..], c)
  }

  /** The first rule that fires gives its unit; none firing gives "". */
  lemma {:induction false} FirstFiringUnit(rules: seq<IdRule>, c: string)
    ensures FirstFiring(rules, c) == "" || exists i :: 0 <= i < |rules| && FirstFiring(rules, c) == rules[i].unit
  {
    if rules != [] && !Fires(rules[0], c) {
      FirstFiringUnit(rules[1..], c);
      if FirstFiring(rules[1..], c) != "" {
        var i :| 0 <= i < |rules[1..]| && FirstFiring(rules[1..], c) == rules[1..][i].unit;
        assert rules[i + 1].unit == rules[1..][i].unit;
      }
    }
  }

  /** `unit_from_candidate_id(cid)`: the unit of the first rule, in the
      order written, that the lower-cased id satisfies. */
  function UnitFromCandidateId(cid: string): (r: string)
    ensures r == "" || r in CanonicalUnits
    ensures cid == "" ==> r == ""
  {
    if cid == "" then ""
    else
      FirstFiringUnit(IdRules, Lower(cid));
      FirstFiring(IdRules, Lower(cid))
  }

  /** `{orig, cand} == {"rpm", "rev/s"}`. */
  predicate RpmPair(orig: string, cand: string) {
    (orig == "rpm" && cand == "rev/s") || (orig == "rev/s" && cand == "rpm")
  }

  /** `unit_compat_score(orig, cand)`. */
  function UnitCompatScore(orig: string, cand: string): (w: real)
    ensures w in {1.0, 0.85, 0.8, 0.5}
  {
    if orig == "" && cand == "" then 1.0
    else if orig == cand then 1.0
    else if RpmPair(orig, cand) then 0.85
    else if orig == "" || cand == "" then 0.8
    else 0.5
  }

  /** Full compatibility exactly for equal units (both unknown included),
      0.85 exactly for rpm against rev/s, 0.8 exactly when one side is
      unknown; the score does not depend on the order of its arguments. */
  lemma CompatScoreValues(orig: string, cand: string)
    ensures UnitCompatScore(orig, cand) == UnitCompatScore(cand, orig)
    ensures UnitCompatScore(orig, cand) == 1.0 <==> orig == cand
    ensures UnitCompatScore(orig, cand) == 0.85 <==> {orig, cand} == {"rpm", "rev/s"}
    ensures UnitCompatScore(orig, cand) == 0.8 <==> orig != cand && (orig == "" || cand == "")
  {
    if {orig, cand} == {"rpm", "rev/s"} {
      assert orig in {"rpm", "rev/s"} && cand in {"rpm", "rev/s"};
      assert orig != cand;
    }
    if RpmPair(orig, cand) {
      assert {orig, cand} == {"rpm", "rev/s"};
    }
  }

  /** The score falls below 0.7 exactly when both units are known, differ,
      and are not the rpm / rev/s pair. */
  lemma CompatBelowFloor(orig: string, cand: string)
    ensures UnitCompatScore(orig, cand) < CompatFloor <==>
      orig != "" && cand != "" && orig != cand && {orig, cand} != {"rpm", "rev/s"}
  {
    CompatScoreValues(orig, cand);
  }

}
