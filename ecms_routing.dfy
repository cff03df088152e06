/** The decision logic of the ECMS matching pipeline
    (`TESTFILES/ECMSPIPELINE/masteragent_ecms.py`): confidence bucketing, name
    normalisation, the out-of-domain token gate and the per-variable decision
    that follows the top-K retrieval. Everything here is a pure function of
    the scores; the stateful client and the row log are in `EcmsPipeline`. */
module EcmsRouting {
  import opened Wrappers
  import opened Text
  import opened Clients
  import opened Retrieval

  const TopK: nat := 5
  const MinSim: real := 0.45
  const SimGap: real := 0.06
  const NoMatchThr: real := 0.40
  const HumanReviewThr: real := 0.45

  /** The `status` column. */
  datatype Status = NoMatch | HumanReview | Accept | SkippedNotInStandard

  /** `route_by_conf`: buckets a confidence into the three decision statuses. */
  function RouteByConf(conf: real): (s: Status)
    ensures s != SkippedNotInStandard
    ensures s == NoMatch <==> conf <= NoMatchThr
    ensures s == HumanReview <==> NoMatchThr < conf <= HumanReviewThr
    ensures s == Accept <==> HumanReviewThr < conf
  {
    if conf <= NoMatchThr then NoMatch
    else if conf <= HumanReviewThr then HumanReview
    else Accept
  }

  /** Position of a decision status on the NO_MATCH < HUMAN_REVIEW < ACCEPT scale. */
  function Rank(s: Status): nat {
    match s
    case NoMatch => 0
    case HumanReview => 1
    case Accept => 2
    case SkippedNotInStandard => 0
  }

  /** A higher confidence never lands in a lower bucket. */
  lemma RouteMonotone(c1: real, c2: real)
    requires c1 <= c2
    ensures Rank(RouteByConf(c1)) <= Rank(RouteByConf(c2))
  {
  }

  /** `norm`: None becomes "", anything else is stripped and lower-cased. */
  function Norm(s: Option<string>): (r: string)
    ensures s.None? ==> r == ""
    ensures s.Some? ==> |r| <= |s.value|
    ensures forall i :: 0 <= i < |r| ==> !IsUpperChar(r[i])
  {
    match s
    case None => ""
    case Some(x) => Lower(Strip(x))
  }

  /** Normalising twice is normalising once, so the normalised skip list and a
      normalised name compare on equal terms. */
  lemma NormIdempotent(s: Option<string>)
    ensures Norm(Some(Norm(s))) == Norm(s)
  {
    if s.Some? {
      var n := Lower(Strip(s.value));
      LowerKeepsStripped(Strip(s.value));
      LowerIdempotent(Strip(s.value));
    }
  }

  /** The tokens `is_ood` looks for at a word start, ignoring case. */
  const OodTokens: seq<string> := ["Pkt", "PLC", "FW", "DbgVar", "Checksum"]

  /** `is_ood`: some token starts at a word boundary. A missing name is "". */
  predicate IsOod(name: Option<string>) {
    exists t :: t in OodTokens && HasToken(name.GetOr(""), t)
  }

  /** `_` is a word character, so a token glued after `_` is not at a word
      start: "Eng_PLC" passes the gate, whereas "plc_x" is caught. */
  lemma UnderscoreBlocksGate()
    ensures !IsOod(Some("Eng_PLC"))
    ensures IsOod(Some("plc_x"))
  {
    var s := "Eng_PLC";
    assert forall i :: 0 <= i < |s| ==> IsWordChar(s[i]);
    forall t | t in OodTokens
      ensures !HasToken(s, t)
    {
      if |t| <= |s| {
        assert Lower(s[0..|t|])[0] == 'e';
        assert Lower(t)[0] != 'e';
      }
      WordOnlyNoToken(s, t);
    }
    var x := "plc_x";
    assert Lower(x[0..3]) == Lower("PLC");
    assert TokenAt(x, 0, "PLC");
    assert "PLC" in OodTokens;
  }

  /** How a row was decided (the audit's `method` column). */
  datatype Route = SkipList | OodGate | LowSim | AutoMargin | Llm

  /** The `reason` column; the numbers of the formatted messages are kept as
      values, their three-decimal rendering is not modelled. */
  datatype Reason =
    | NotInStandard
    | Ood
    | LowSimilarity(topSim: real)
    | AutoByMargin(topSim: real, margin: real)
    | FromLlm(text: string)

  /** One row of the results file. */
  datatype Row = Row(
    file: string,
    originalName: string,
    bestMatch: string,
    confidence: real,
    reason: Reason,
    status: Status)

  /** One row of the audit file: the result row plus how it was decided, the
      top and second-to-top margin, and the compact candidate list. */
  datatype Audit = Audit(row: Row, route: Route, topSim: real, margin: real, top: seq<(string, real)>)

  /** The row of a name found in the skip list. */
  function SkippedAudit(file: string, name: string): (a: Audit)
    ensures a.row.status == SkippedNotInStandard && a.route == SkipList
    ensures a.row.bestMatch == "" && a.row.confidence == 0.0 && a.top == []
  {
    Audit(Row(file, name, "", 0.0, NotInStandard, SkippedNotInStandard), SkipList, 0.0, 0.0, [])
  }

  /** The row of a name the OOD gate rejects. */
  function OodAudit(file: string, name: string): (a: Audit)
    ensures a.row.status == NoMatch && a.route == OodGate && a.row.reason == Ood
    ensures a.row.bestMatch == "" && a.row.confidence == 0.0 && a.top == []
  {
    Audit(Row(file, name, "", 0.0, Ood, NoMatch), OodGate, 0.0, 0.0, [])
  }

  /** `f"Variable '{name}' from OEM dataset"`: the text embedded for a name. */
  function Query(name: string): (q: string)
    ensures StartsWith(q, "Variable '") && EndsWith(q, "' from OEM dataset")
  {
    "Variable '" + name + "' from OEM dataset"
  }

  /** The query has no surrounding white space, so the stripped cache key of
      `embed_text` is the query itself. */
  lemma QueryIsStripped(name: string)
    ensures Strip(Query(name)) == Query(name)
  {
    var pre, suf := "Variable '", "' from OEM dataset";
    var q := Query(name);
    assert q == pre + (name + suf);
    assert q[0] == pre[0] == 'V';
    assert q[|q| - 1] == suf[|suf| - 1] == 't';
  }

  /** `sims[idx[0]]`, or 0.0 for an empty ranking. */
  function TopSim(sims: seq<real>, idx: seq<nat>): real
    requires InRange(idx, |sims|)
  {
    if |idx| > 0 then sims[idx[0]] else 0.0
  }

  /** `sims[idx[1]]`, or 0.0 with fewer than two candidates. */
  function SecondSim(sims: seq<real>, idx: seq<nat>): real
    requires InRange(idx, |sims|)
  {
    if |idx| > 1 then sims[idx[1]] else 0.0
  }

  /** `top_candidates`: ids and scores of the retrieved candidates (the
      scores are written rounded to four places, which is not modelled). */
  function Compact(cands: seq<Candidate>): (c: seq<(string, real)>)
    ensures |c| == |cands|
    ensures forall j :: 0 <= j < |cands| ==> c[j] == (cands[j].id, cands[j].sim)
  {
    seq(|cands|, j requires 0 <= j < |cands| => (cands[j].id, cands[j].sim))
  }

  predicate IsLowSim(sims: seq<real>, idx: seq<nat>)
    requires InRange(idx, |sims|)
  {
    TopSim(sims, idx) < MinSim
  }

  predicate IsAutoMargin(sims: seq<real>, idx: seq<nat>)
    requires InRange(idx, |sims|)
  {
    !IsLowSim(sims, idx) && |idx| > 1 && TopSim(sims, idx) - SecondSim(sims, idx) >= SimGap
  }

  function RealMin(a: real, b: real): real {
    if a <= b then a else b
  }

  function RealMax(a: real, b: real): real {
    if a >= b then a else b
  }

  /** What every row of the audit satisfies, by the method that decided it. */
  predicate WellRouted(a: Audit) {
    match a.route
    case SkipList =>
      a.row.status == SkippedNotInStandard && a.row.bestMatch == "" && a.row.confidence == 0.0
    case OodGate =>
      a.row.status == NoMatch && a.row.bestMatch == "" && a.row.confidence == 0.0 && a.row.reason == Ood
    case LowSim =>
      a.row.bestMatch == "" && a.row.confidence == a.topSim && a.topSim < MinSim
      && a.row.status == RouteByConf(a.row.confidence)
    case AutoMargin =>
      MinSim <= a.topSim && |a.top| > 1 && a.margin >= SimGap
      && a.row.bestMatch == a.top[0].0 && a.row.confidence == RealMin(0.99, a.topSim)
      && a.row.status == RouteByConf(a.row.confidence)
    case Llm =>
      MinSim <= a.topSim && !(|a.top| > 1 && a.margin >= SimGap)
      && a.row.status == RouteByConf(a.row.confidence)
  }

  /** The decision taken from the scores alone, after the gates: `Some` row for
      the low-similarity abstain and for the margin auto-accept, `None` when
      the variable goes to the LLM. */
  function Screen(file: string, name: string, index: Index, sims: seq<real>, idx: seq<nat>): (r: Option<Audit>)
    requires Aligned(index, sims) && InRange(idx, |sims|)
    ensures r.Some? <==> IsLowSim(sims, idx) || IsAutoMargin(sims, idx)
    ensures r.Some? ==> WellRouted(r.value) && r.value.row.file == file && r.value.row.originalName == name
    ensures r.Some? ==> r.value.top == Compact(Candidates(index, sims, idx))
    ensures r.Some? ==> r.value.topSim == TopSim(sims, idx) && r.value.margin == TopSim(sims, idx) - SecondSim(sims, idx)
    ensures IsLowSim(sims, idx) ==> r.value.route == LowSim
    ensures IsAutoMargin(sims, idx) ==> r.value.route == AutoMargin && r.value.row.bestMatch == index.ids[idx[0]]
  {
    var top := TopSim(sims, idx);
    var margin := top - SecondSim(sims, idx);
    var cands := Compact(Candidates(index, sims, idx));
    if top < MinSim then
      Some(Audit(Row(file, name, "", top, LowSimilarity(top), RouteByConf(top)), LowSim, top, margin, cands))
    else if |idx| > 1 && margin >= SimGap then
      var conf := RealMin(0.99, top);
      Some(Audit(Row(file, name, index.ids[idx[0]], conf, AutoByMargin(top, margin), RouteByConf(conf)),
        AutoMargin, top, margin, cands))
    else None
  }

  /** The row built from the LLM's verdict: a missing or null `best_match`
      reads as "", a missing or null `confidence` as 0.0, and the status is
      the bucket of that confidence. A null `reason` is written as "". */
  function LlmAudit(file: string, name: string, index: Index, sims: seq<real>, idx: seq<nat>, v: Verdict): (a: Audit)
    requires Aligned(index, sims) && InRange(idx, |sims|)
    requires !IsLowSim(sims, idx) && !IsAutoMargin(sims, idx)
    ensures WellRouted(a) && a.route == Llm && a.row.file == file && a.row.originalName == name
    ensures a.row.bestMatch == (if v.bestMatch.Value? then v.bestMatch.v else "")
    ensures a.row.confidence == (if v.confidence.Value? then v.confidence.v else 0.0)
    ensures a.row.status == RouteByConf(a.row.confidence)
  {
    var top := TopSim(sims, idx);
    var best := if v.bestMatch.Value? then v.bestMatch.v else "";
    var conf := if v.confidence.Value? then v.confidence.v else 0.0;
    var why := if v.reason.Value? then v.reason.v else "";
    Audit(Row(file, name, best, conf, FromLlm(why), RouteByConf(conf)), Llm, top, top - SecondSim(sims, idx),
      Compact(Candidates(index, sims, idx)))
  }

  /** The row of a name that passed the gate, decided from its scores: by the
      score gates when they can, and otherwise by the LLM's verdict, which is
      not consulted in the first case. */
  function Decide(file: string, name: string, index: Index, sims: seq<real>, v: Verdict): (a: Audit)
    requires Aligned(index, sims)
    ensures WellRouted(a) && a.row.file == file && a.row.originalName == name
    ensures a.route in {LowSim, AutoMargin, Llm}
    ensures a.top == Compact(Candidates(index, sims, TopIndices(sims, TopK)))
    ensures a.route == Llm <==> Screen(file, name, index, sims, TopIndices(sims, TopK)).None?
  {
    var idx := TopIndices(sims, TopK);
    match Screen(file, name, index, sims, idx)
    case Some(a) => a
    case None => LlmAudit(file, name, index, sims, idx, v)
  }

  /** The low-similarity branch never accepts: its confidence is the top score,
      below MIN_SIM = 0.45 = HUMAN_REVIEW_THR. */
  lemma LowSimNeverAccepts(a: Audit)
    requires WellRouted(a) && a.route == LowSim
    ensures a.row.status in {NoMatch, HumanReview} && a.row.bestMatch == ""
  {
  }

  /** ...but since NO_MATCH_THR = 0.40 < MIN_SIM, a top score between the two
      gives HUMAN_REVIEW with an empty match. */
  lemma LowSimCanAskForReview()
    ensures var r := Screen("f.ttl", "n", Index(["id"], ["text"]), [0.42], [0]);
      r.Some? && r.value.route == LowSim && r.value.row.bestMatch == ""
      && r.value.row.status == HumanReview
  {
    var sims: seq<real> := [0.42];
    assert TopSim(sims, [0]) == 0.42;
  }

  /** The margin branch picks the top id with confidence at most 0.99 and
      never says NO_MATCH, since its confidence is at least MIN_SIM. */
  lemma AutoMarginNeverRejects(a: Audit)
    requires WellRouted(a) && a.route == AutoMargin
    ensures a.row.confidence <= 0.99 && a.row.status in {HumanReview, Accept}
    ensures a.row.bestMatch == a.top[0].0
  {
  }

  /** Every decision status except the skip status is the bucket of the row's
      confidence. */
  lemma StatusFollowsConfidence(a: Audit)
    requires WellRouted(a) && a.route != SkipList
    ensures a.row.status == RouteByConf(a.row.confidence)
  {
  }

  /** Which branch is taken, and the confidence and status it gives, depend
      only on the scores, not on how a ranking orders equal scores. */
  lemma ScreenIgnoresTies(file: string, name: string, index: Index, sims: seq<real>, a: seq<nat>, b: seq<nat>)
    requires Aligned(index, sims) && IsTopK(sims, TopK, a) && IsTopK(sims, TopK, b)
    ensures Screen(file, name, index, sims, a).Some? == Screen(file, name, index, sims, b).Some?
    ensures Screen(file, name, index, sims, a).Some? ==>
      Screen(file, name, index, sims, a).value.row.confidence == Screen(file, name, index, sims, b).value.row.confidence
      && Screen(file, name, index, sims, a).value.row.status == Screen(file, name, index, sims, b).value.row.status
  {
    if |a| > 0 {
      RankScoresAgree(sims, TopK, a, b, 0);
    }
    if |a| > 1 {
      RankScoresAgree(sims, TopK, a, b, 1);
    }
  }
}
