/** `build_query_text` of `masteragent.py`: the descriptive query of one
    extracted variable, with its unit label and the hints its name fires. */
module QueryText {
  import opened Wrappers
  import opened Text
  import opened QudtLabels


  /** One extracted variable: its subject IRI and the optional name, context,
      datatype, unit IRI and observed value (as the text `str()` gives). */
  datatype OemVar = OemVar(id: string, name: Option<string>, context: Option<string>, dataType: Option<string>,
                           unit: Option<string>, value: Option<string>)

  /** `x or ""`: `None` and "" both read as "". */
  function OrEmpty(x: Option<string>): (s: string)
    ensures s == "" <==> x.None? || x == Some("")
    ensures x.Some? ==> s == x.value
  {
    x.GetOr("")
  }

  /** The hints, in the order the rules are tried. */
  const HintTexts: seq<string> := [
    "This likely denotes engine POWER.",
    "This likely denotes ROTATIONAL SPEED.",
    "This likely denotes TORQUE.",
    "This may denote BOLLARD THRUST.",
    "This may denote SEA CHEST VOLUME for cooling water.",
    "This likely denotes MATERIAL YIELD STRENGTH (MPa)."
  ]

  /** The texts the pattern `\bp[_\-]?(w|me)?\b` can match: "p", an optional
      separator, an optional "w" or "me". */
  const PowerForms: seq<string> := ["p", "p_", "p-", "pw", "pme", "p_w", "p_me", "p-w", "p-me"]

  /** The names the power rule accepts outright. */
  const PowerNames: set<string> := {"p", "p_w", "p_me", "engine_power"}

  /** `form` occurs at `i` with a word boundary on both sides. */
  predicate PowerAt(low: string, i: nat, form: string) {
    i + |form| <= |low| && OccursAt(low, form, i) && WordBoundary(low, i) && WordBoundary(low, i + |form|)
  }

  /** `re.search(r"\bp[_\-]?(w|me)?\b", low)` succeeds: backtracking tries
      every form at every start. */
  predicate PowerPattern(low: string) {
    exists i: nat, j :: i <= |low| && 0 <= j < |PowerForms| && PowerAt(low, i, PowerForms[j])
  }

  /** Whether hint rule `rule` fires for the lower-cased name. */
  predicate Fires(rule: nat, low: string)
    requires rule < |HintTexts|
  {
    if rule == 0 then PowerPattern(low) || low in PowerNames
    else if rule == 1 then Contains(low, "omega") || Contains(low, "n_rpm") || Contains(low, "rpm") || Contains(low, "rev")
    else if rule == 2 then StartsWith(low, "t") || Contains(low, "torq")
    else if rule == 3 then Contains(low, "bollard")
    else if rule == 4 then Contains(low, "ychest") || Contains(low, "seachest")
    else Contains(low, "y_strength") || Contains(low, "yield")
  }

  /** The numbers from `from` below `n` that satisfy `p`, in increasing order. */
  function Selected(n: nat, p: nat -> bool, from: nat): (js: seq<nat>)
    requires from <= n
    ensures forall k :: 0 <= k < |js| ==> from <= js[k] < n && p(js[k])
    ensures forall k, l :: 0 <= k < l < |js| ==> js[k] < js[l]
    ensures forall j :: from <= j < n && p(j) ==> j in js
    decreases n - from
  {
    if from == n then []
    else if p(from) then [from] + Selected(n, p, from + 1)
    else Selected(n, p, from + 1)
  }

  /** When no number from `from` below `n` satisfies `p`, none is selected. */
  lemma {:induction false} NoneSelected(n: nat, p: nat -> bool, from: nat)
    requires from <= n
    ensures (forall j :: from <= j < n ==> !p(j)) ==> Selected(n, p, from) == []
    decreases n - from
  {
    if from < n {
      NoneSelected(n, p, from + 1);
    }
  }

  /** The rules from `from` on that fire, in increasing order. */
  function Fired(low: string, from: nat): (js: seq<nat>)
    requires from <= |HintTexts|
    ensures forall k :: 0 <= k < |js| ==> from <= js[k] < |HintTexts| && Fires(js[k], low)
    ensures forall k, l :: 0 <= k < l < |js| ==> js[k] < js[l]
    ensures forall j :: from <= j < |HintTexts| && Fires(j, low) ==> j in js
    ensures (forall j :: from <= j < |HintTexts| ==> !Fires(j, low)) ==> js == []
  {
    var fires := (j: nat) => j < |HintTexts| && Fires(j, low);
    NoneSelected(|HintTexts|, fires, from);
    Selected(|HintTexts|, fires, from)
  }

  /** `" ".join(hints)` for the name. */
  function HintText(name: string): (h: string)
  {
    var js := Fired(Lower(name), 0);
    Join(seq(|js|, k requires 0 <= k < |js| => HintTexts[js[k]]), " ")
  }

  /** The values `build_query_text` puts into its template. */
  datatype QueryFields = QueryFields(name: string, unit: string, context: string, dataType: string, approx: string, hints: string)

  /** The defaults of `build_query_text`: a missing name, context or
      datatype reads as "", a missing value as "unknown", and a unit without
      a label as "unspecified". */
  function Fields(v: OemVar): (f: QueryFields)
    ensures f.name == OrEmpty(v.name) && f.context == OrEmpty(v.context) && f.dataType == OrEmpty(v.dataType)
    ensures QudtUriToLabel(OrEmpty(v.unit)) == "" ==> f.unit == "unspecified"
    ensures QudtUriToLabel(OrEmpty(v.unit)) != "" ==> f.unit == QudtUriToLabel(OrEmpty(v.unit))
    ensures v.value.None? ==> f.approx == "unknown"
    ensures v.value.Some? ==> f.approx == v.value.value
    ensures f.hints == HintText(f.name)
  {
    var unitLabel := QudtUriToLabel(OrEmpty(v.unit));
    var name := OrEmpty(v.name);
    QueryFields(name, if unitLabel == "" then "unspecified" else unitLabel, OrEmpty(v.context), OrEmpty(v.dataType),
                if v.value.None? then "unknown" else v.value.value, HintText(name))
  }

  const Preamble: string := "This is an OEM variable from a marine powertrain dataset. "
  const Instruction: string := "Find the single best canonical ontology property (ID) with the same physical meaning and unit."

  /** The template of `build_query_text`. */
  function Render(f: QueryFields): (q: string)
    ensures StartsWith(q, Preamble + "Variable name: '" + f.name + "'. Unit: " + f.unit + ". ")
    ensures EndsWith(q, "Observed value (approx): " + f.approx + ". " + f.hints + " " + Instruction)
  {
    var head := Preamble + "Variable name: '" + f.name + "'. Unit: " + f.unit + ". ";
    var tail := "Observed value (approx): " + f.approx + ". " + f.hints + " " + Instruction;
    var q := head + "Context system IRI: " + f.context + ". " + "Datatype: " + f.dataType + ". " + tail;
    assert q[..|head|] == head;
    assert q[|q| - |tail|..] == tail;
    q
  }

  /** `build_query_text(v)`. */
  function BuildQueryText(v: OemVar): string {
    Render(Fields(v))
  }

  /** An empty text fires no rule. */
  lemma NoRuleForEmpty(j: nat)
    requires j < |HintTexts|
    ensures !Fires(j, "")
  {
    forall i: nat, k | 0 <= k < |PowerForms|
      ensures !PowerAt("", i, PowerForms[k])
    {
    }
  }

  /** A variable without a name gets no hint. */
  lemma NamelessVariableHasNoHints(v: OemVar)
    requires v.name.None?
    ensures Fields(v).hints == ""
  {
    forall j | 0 <= j < |HintTexts|
      ensures !Fires(j, "")
    {
      NoRuleForEmpty(j);
    }
    assert Fired("", 0) == [];
  }

  /** No rule but the power rule fires for "p_me": it holds none of the
      other rules' words. */
  lemma PmeFiresNoOtherRule()
    ensures forall j :: 1 <= j < |HintTexts| ==> !Fires(j, "p_me")
  {
    var low := "p_me";
    FirstCharAbsent(low, "omega");
    FirstCharAbsent(low, "n_rpm");
    FirstCharAbsent(low, "rpm");
    FirstCharAbsent(low, "rev");
    FirstCharAbsent(low, "torq");
    FirstCharAbsent(low, "bollard");
    FirstCharAbsent(low, "ychest");
    FirstCharAbsent(low, "seachest");
    FirstCharAbsent(low, "y_strength");
    FirstCharAbsent(low, "yield");
  }

  /** "P_ME" is named outright by the power rule and by no other. */
  lemma PowerHintForPme()
    ensures HintText("P_ME") == HintTexts[0]
  {
    var low := "p_me";
    assert Lower("P_ME") == low;
    assert Fires(0, low);
    PmeFiresNoOtherRule();
    assert Fired(low, 1) == [];
    assert Fired(low, 0) == [0] + Fired(low, 1);
  }

  /** `_` is a word character, so a trailing "_p" is no power token: "eng_p"
      gets no power hint. */
  lemma UnderscoreHidesPower()
    ensures !Fires(0, "eng_p")
  {
    var low := "eng_p";
    forall i: nat, k | 0 <= k < |PowerForms| && PowerAt(low, i, PowerForms[k])
      ensures false
    {
    }
  }
}
