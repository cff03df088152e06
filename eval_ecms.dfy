/** `eval_results_ecms.py`: scores the routed rows of the ECMS pipeline
    against a ground-truth table. The routing buckets are split into right
    and wrong, the two automatic buckets (ACCEPT and NO_MATCH) form a
    confusion matrix, and the usual ratios are taken with a guarded
    division. */
module EcmsEval {
  import opened Wrappers
  import opened Text
  import opened EcmsPipeline

  /** The token the ground truth uses for "no ontology entry exists". */
  const DontExistToken: string := "DONTEXIST"

  const AcceptStatus: string := "ACCEPT"
  const HumanStatus: string := "HUMAN_REVIEW"
  const NoMatchStatus: string := "NO_MATCH"

  // ---------------------------------------------------------------------------
  // Loading
  // ---------------------------------------------------------------------------

  /** A spreadsheet cell: empty (NaN) or holding a text. */
  datatype Cell = Blank | Written(text: string)

  /** `astype(str)`: an empty cell reads as "nan". */
  function CellText(c: Cell): (s: string)
    ensures c.Blank? ==> s == "nan"
    ensures c.Written? ==> s == c.text
  {
    match c
    case Blank => "nan"
    case Written(t) => t
  }

  /** The cleaning of `best_match` and `correct_match`: stripped text, with
      the placeholders "nan" and "None" read as "". */
  function CleanMatch(c: Cell): (s: string)
    ensures s != "nan" && s != "None"
    ensures c.Blank? ==> s == ""
    ensures Strip(CellText(c)) != "nan" && Strip(CellText(c)) != "None" ==> s == Strip(CellText(c))
    ensures s == "" || s == Strip(CellText(c))
  {
    var t := Strip(CellText(c));
    if t == "nan" || t == "None" then "" else t
  }

  /** The name of a ground-truth row, stripped. */
  function RowKey(row: (Cell, Cell)): string {
    Strip(CellText(row.0))
  }

  /** `dict` of a sequence of pairs: every key present, no other key, a
      later pair overriding an earlier one. */
  function ToDict(pairs: seq<(string, string)>): (d: map<string, string>)
    ensures forall i :: 0 <= i < |pairs| ==> pairs[i].0 in d
    ensures forall k :: k in d ==> exists i :: 0 <= i < |pairs| && pairs[i].0 == k
  {
    if pairs == [] then map[]
    else
      var init, last := pairs[..|pairs| - 1], pairs[|pairs| - 1];
      assert forall i :: 0 <= i < |init| ==> init[i] == pairs[i];
      ToDict(init)[last.0 := last.1]
  }

  /** The value of a key is the one of its last pair. */
  lemma {:induction false} LastPairWins(pairs: seq<(string, string)>, i: nat)
    requires i < |pairs|
    requires forall j :: i < j < |pairs| ==> pairs[j].0 != pairs[i].0
    ensures ToDict(pairs)[pairs[i].0] == pairs[i].1
  {
    if i < |pairs| - 1 {
      var init := pairs[..|pairs| - 1];
      assert init[i] == pairs[i];
      forall j | i < j < |init|
        ensures init[j].0 != init[i].0
      {
        assert init[j] == pairs[j];
      }
      LastPairWins(init, i);
    }
  }

  /** The `set_index(...).to_dict()` of the ground-truth sheet: each
      stripped name maps to its cleaned correct match. */
  function GroundTruth(sheet: seq<(Cell, Cell)>): (gt: map<string, string>)
    ensures forall i :: 0 <= i < |sheet| ==> RowKey(sheet[i]) in gt
    ensures forall k :: k in gt ==> exists i :: 0 <= i < |sheet| && RowKey(sheet[i]) == k
  {
    var pairs := seq(|sheet|, i requires 0 <= i < |sheet| => (RowKey(sheet[i]), CleanMatch(sheet[i].1)));
    assert forall i :: 0 <= i < |sheet| ==> pairs[i].0 == RowKey(sheet[i]);
    ToDict(pairs)
  }

  /** A name takes the correct match of its last row in the sheet. */
  lemma LastRowWins(sheet: seq<(Cell, Cell)>, i: nat)
    requires i < |sheet|
    requires forall j :: i < j < |sheet| ==> RowKey(sheet[j]) != RowKey(sheet[i])
    ensures GroundTruth(sheet)[RowKey(sheet[i])] == CleanMatch(sheet[i].1)
  {
    var pairs := seq(|sheet|, i requires 0 <= i < |sheet| => (RowKey(sheet[i]), CleanMatch(sheet[i].1)));
    LastPairWins(pairs, i);
  }

  /** One row of the results file, as read. */
  datatype RawResult = RawResult(name: Cell, bestMatch: Cell, status: Cell)

  /** A row with its ground truth attached. */
  datatype Scored = Scored(name: string, bestMatch: string, status: string, correct: string)

  /** The normalisation of a results row and `map(gt_map).fillna("")`. */
  function Attach(gt: map<string, string>, r: RawResult): (s: Scored)
    ensures s.name == Strip(CellText(r.name)) && s.status == Strip(CellText(r.status))
    ensures s.bestMatch == CleanMatch(r.bestMatch)
    ensures s.name in gt ==> s.correct == gt[s.name]
    ensures s.name !in gt ==> s.correct == ""
  {
    var name := Strip(CellText(r.name));
    Scored(name, CleanMatch(r.bestMatch), Strip(CellText(r.status)), if name in gt then gt[name] else "")
  }

  function AttachAll(gt: map<string, string>, rows: seq<RawResult>): (rs: seq<Scored>)
    ensures |rs| == |rows|
    ensures forall i :: 0 <= i < |rows| ==> rs[i] == Attach(gt, rows[i])
  {
    seq(|rows|, i requires 0 <= i < |rows| => Attach(gt, rows[i]))
  }

  // ---------------------------------------------------------------------------
  // Row predicates
  // ---------------------------------------------------------------------------

  /** `has_gt`: the ground truth names a match (possibly DONTEXIST). */
  predicate HasGt(r: Scored) {
    r.correct != ""
  }

  /** `is_dontexist`, compared upper-case. */
  predicate IsDontExist(r: Scored) {
    Upper(r.correct) == DontExistToken
  }

  /** `has_gt_pos`: an actual positive, a real mapping. */
  predicate HasGtPos(r: Scored) {
    HasGt(r) && !IsDontExist(r) && r.correct != ""
  }

  /** `is_correct_prediction`. */
  predicate IsCorrectPrediction(r: Scored) {
    HasGtPos(r) && Strip(r.bestMatch) == Strip(r.correct)
  }

  /** `should_accept`. */
  predicate ShouldAccept(r: Scored) {
    HasGtPos(r)
  }

  /** An actual positive is a non-empty truth other than DONTEXIST in any
      letter case; a correct prediction needs one. */
  lemma PositiveMeaning(r: Scored)
    ensures HasGtPos(r) <==> r.correct != "" && Upper(r.correct) != DontExistToken
    ensures IsCorrectPrediction(r) ==> ShouldAccept(r)
    ensures r.correct == "" ==> !IsCorrectPrediction(r) && !ShouldAccept(r)
  {
  }

  /** A lower-case "dontexist" is caught too. */
  lemma LowerCaseDontExist()
    ensures !HasGtPos(Scored("v", "", AcceptStatus, "dontexist"))
  {
    var r := Scored("v", "", AcceptStatus, "dontexist");
    assert Upper(r.correct) == DontExistToken;
  }

  /** The four cells of the automatic confusion matrix. */
  datatype Confusion = TP | FP | FN | TN

  /** `classify_auto` on the rows `auto` keeps: an ACCEPT is a true
      positive when it is correct, a NO_MATCH a false negative when a real
      mapping exists; HUMAN_REVIEW and any other status are not classified. */
  function ClassifyAuto(r: Scored): (c: Option<Confusion>)
    ensures c.Some? <==> r.status == AcceptStatus || r.status == NoMatchStatus
    ensures c == Some(TP) <==> r.status == AcceptStatus && IsCorrectPrediction(r)
    ensures c == Some(FP) <==> r.status == AcceptStatus && !IsCorrectPrediction(r)
    ensures c == Some(FN) <==> r.status == NoMatchStatus && ShouldAccept(r)
    ensures c == Some(TN) <==> r.status == NoMatchStatus && !ShouldAccept(r)
  {
    if r.status != AcceptStatus && r.status != NoMatchStatus then None
    else
      var actualPos := HasGtPos(r);
      if r.status == AcceptStatus then
        (if actualPos && IsCorrectPrediction(r) then Some(TP) else Some(FP))
      else if actualPos then Some(FN)
      else Some(TN)
  }

  // ---------------------------------------------------------------------------
  // Counts
  // ---------------------------------------------------------------------------

  /** `len(res[res["status"] == s])`. */
  function CountStatus(rows: seq<Scored>, s: string): (n: nat)
    ensures n <= |rows|
  {
    if rows == [] then 0
    else CountStatus(rows[..|rows| - 1], s) + (if rows[|rows| - 1].status == s then 1 else 0)
  }

  /** `accepted["is_correct"].sum()`. */
  function AcceptedCorrect(rows: seq<Scored>): nat {
    if rows == [] then 0
    else
      var r := rows[|rows| - 1];
      AcceptedCorrect(rows[..|rows| - 1]) + (if r.status == AcceptStatus && IsCorrectPrediction(r) then 1 else 0)
  }

  /** `bucket["should_accept"].sum()` for the bucket of status `s`. */
  function ShouldAcceptIn(rows: seq<Scored>, s: string): nat {
    if rows == [] then 0
    else
      var r := rows[|rows| - 1];
      ShouldAcceptIn(rows[..|rows| - 1], s) + (if r.status == s && ShouldAccept(r) then 1 else 0)
  }

  /** `counts_auto.get(c, 0)`. */
  function CountConfusion(rows: seq<Scored>, c: Confusion): nat {
    if rows == [] then 0
    else CountConfusion(rows[..|rows| - 1], c) + (if ClassifyAuto(rows[|rows| - 1]) == Some(c) then 1 else 0)
  }

  /** The right part of a bucket never exceeds the bucket, so the wrong part
      (the bucket size minus the right part) is a count too. */
  lemma {:induction false} SplitsWithinBuckets(rows: seq<Scored>, s: string)
    ensures AcceptedCorrect(rows) <= CountStatus(rows, AcceptStatus)
    ensures ShouldAcceptIn(rows, s) <= CountStatus(rows, s)
  {
    if rows != [] {
      SplitsWithinBuckets(rows[..|rows| - 1], s);
    }
  }

  /** The confusion matrix agrees with the bucket splits: TP counts the
      correct ACCEPTs, FN the NO_MATCHes that should have been accepted, and
      TP + FP and FN + TN are the sizes of the two automatic buckets. */
  lemma {:induction false} ConfusionMatchesSplits(rows: seq<Scored>)
    ensures CountConfusion(rows, TP) == AcceptedCorrect(rows)
    ensures CountConfusion(rows, TP) + CountConfusion(rows, FP) == CountStatus(rows, AcceptStatus)
    ensures CountConfusion(rows, FN) == ShouldAcceptIn(rows, NoMatchStatus)
    ensures CountConfusion(rows, FN) + CountConfusion(rows, TN) == CountStatus(rows, NoMatchStatus)
  {
    if rows != [] {
      ConfusionMatchesSplits(rows[..|rows| - 1]);
    }
  }

  /** The three routing buckets are disjoint parts of the rows, and the
      confusion matrix covers exactly the two automatic ones. */
  lemma {:induction false} BucketsWithinRows(rows: seq<Scored>)
    ensures CountStatus(rows, AcceptStatus) + CountStatus(rows, HumanStatus) + CountStatus(rows, NoMatchStatus) <= |rows|
  {
    if rows != [] {
      BucketsWithinRows(rows[..|rows| - 1]);
    }
  }

  // ---------------------------------------------------------------------------
  // Metrics
  // ---------------------------------------------------------------------------

  /** `safe_div(a, b)`: 0 for a zero denominator. */
  function SafeDiv(a: real, b: real): (r: real)
    ensures b == 0.0 ==> r == 0.0
    ensures b != 0.0 ==> r * b == a
  {
    if b != 0.0 then a / b else 0.0
  }

  /** A part over its whole is a proportion. */
  lemma RatioInUnit(a: real, b: real)
    requires 0.0 <= a <= b
    ensures 0.0 <= SafeDiv(a, b) <= 1.0
  {
    if b != 0.0 {
      var q := SafeDiv(a, b);
      assert (1.0 - q) * b == b - a;
    }
  }

  /** `f1`: the harmonic mean of precision and recall, 0 when both are 0. */
  function F1(p: real, r: real): real {
    SafeDiv(2.0 * p * r, p + r)
  }

  /** The harmonic mean of two proportions is a proportion. */
  lemma F1InUnit(p: real, r: real)
    requires 0.0 <= p <= 1.0 && 0.0 <= r <= 1.0
    ensures 0.0 <= F1(p, r) <= 1.0
  {
    assert p * r <= p * 1.0 by {
      assert p * (1.0 - r) >= 0.0;
    }
    assert p * r <= 1.0 * r by {
      assert (1.0 - p) * r >= 0.0;
    }
    assert 0.0 <= p * r;
    RatioInUnit(2.0 * p * r, p + r);
  }

  /** The automatic metrics the report prints. */
  datatype Metrics = Metrics(precision: real, recall: real, f1: real, accuracy: real,
                             specificity: real, npv: real, balancedAccuracy: real)

  function AutoMetrics(tp: nat, fp: nat, fn: nat, tn: nat): (m: Metrics)
    ensures m.precision == SafeDiv(tp as real, (tp + fp) as real)
    ensures m.recall == SafeDiv(tp as real, (tp + fn) as real)
    ensures m.accuracy == SafeDiv((tp + tn) as real, (tp + tn + fp + fn) as real)
    ensures m.specificity == SafeDiv(tn as real, (tn + fp) as real)
    ensures m.npv == SafeDiv(tn as real, (tn + fn) as real)
    ensures m.balancedAccuracy == 0.5 * (m.recall + m.specificity)
    ensures m.f1 == F1(m.precision, m.recall)
  {
    var precision := SafeDiv(tp as real, (tp + fp) as real);
    var recall := SafeDiv(tp as real, (tp + fn) as real);
    var specificity := SafeDiv(tn as real, (tn + fp) as real);
    Metrics(precision, recall, F1(precision, recall),
            SafeDiv((tp + tn) as real, (tp + tn + fp + fn) as real), specificity,
            SafeDiv(tn as real, (tn + fn) as real), 0.5 * (recall + specificity))
  }

  /** Every metric is a proportion, 0 when its denominator is 0. */
  lemma MetricsInUnit(tp: nat, fp: nat, fn: nat, tn: nat)
    ensures var m := AutoMetrics(tp, fp, fn, tn);
      && 0.0 <= m.precision <= 1.0 && 0.0 <= m.recall <= 1.0 && 0.0 <= m.f1 <= 1.0
      && 0.0 <= m.accuracy <= 1.0 && 0.0 <= m.specificity <= 1.0 && 0.0 <= m.npv <= 1.0
      && 0.0 <= m.balancedAccuracy <= 1.0
  {
    var m := AutoMetrics(tp, fp, fn, tn);
    RatioInUnit(tp as real, (tp + fp) as real);
    RatioInUnit(tp as real, (tp + fn) as real);
    RatioInUnit((tp + tn) as real, (tp + tn + fp + fn) as real);
    RatioInUnit(tn as real, (tn + fp) as real);
    RatioInUnit(tn as real, (tn + fn) as real);
    F1InUnit(m.precision, m.recall);
  }

  /** `good_pct` and `bad_pct` of a bucket: the two parts as percentages of
      the bucket, both 0 for an empty bucket. */
  function Percentages(good: nat, bad: nat, total: nat): (p: (real, real))
    ensures total == 0 ==> p == (0.0, 0.0)
    ensures total > 0 ==> p.0 * total as real == 100.0 * good as real && p.1 * total as real == 100.0 * bad as real
  {
    if total > 0 then (100.0 * good as real / total as real, 100.0 * bad as real / total as real) else (0.0, 0.0)
  }

  /** The two bars of a non-empty bucket fill it to 100 %. */
  lemma BarsFillBucket(good: nat, bad: nat)
    requires good + bad > 0
    ensures Percentages(good, bad, good + bad).0 + Percentages(good, bad, good + bad).1 == 100.0
  {
    var p := Percentages(good, bad, good + bad);
    var t := (good + bad) as real;
    assert (p.0 + p.1) * t == p.0 * t + p.1 * t;
    assert (p.0 + p.1 - 100.0) * t == 0.0;
  }

  // ---------------------------------------------------------------------------
  // The report
  // ---------------------------------------------------------------------------

  /** The counts of the report and of `routing_summary.csv`. */
  datatype Report = Report(
    total: nat, accept: nat, human: nat, noMatch: nat,
    acceptedCorrect: int, acceptedWrong: int,
    rejectedShouldAccept: int, rejectedCorrectReject: int,
    humanShouldAccept: int, humanShouldReject: int,
    tp: nat, fp: nat, fn: nat, tn: nat,
    missingInGt: seq<string>,
    metrics: Metrics)

  /** The whole evaluation of the results rows against the sheet. */
  function Evaluate(results: seq<RawResult>, sheet: seq<(Cell, Cell)>): (rep: Report)
  {
    var rows := AttachAll(GroundTruth(sheet), results);
    var accept, human, noMatch := CountStatus(rows, AcceptStatus), CountStatus(rows, HumanStatus), CountStatus(rows, NoMatchStatus);
    var ac, rsa, hsa := AcceptedCorrect(rows), ShouldAcceptIn(rows, NoMatchStatus), ShouldAcceptIn(rows, HumanStatus);
    var tp, fp, fn, tn := CountConfusion(rows, TP), CountConfusion(rows, FP), CountConfusion(rows, FN), CountConfusion(rows, TN);
    Report(|rows|, accept, human, noMatch, ac, accept - ac, rsa, noMatch - rsa, hsa, human - hsa,
           tp, fp, fn, tn, Dedup(Missing(rows)), AutoMetrics(tp, fp, fn, tn))
  }

  /** The names of the rows without ground truth, in row order. */
  function Missing(rows: seq<Scored>): (ns: seq<string>)
    ensures forall x :: x in ns <==> exists i :: 0 <= i < |rows| && !HasGt(rows[i]) && rows[i].name == x
  {
    if rows == [] then []
    else
      var init := rows[..|rows| - 1];
      var r := rows[|rows| - 1];
      assert forall i :: 0 <= i < |init| ==> init[i] == rows[i];
      Missing(init) + (if HasGt(r) then [] else [r.name])
  }

  /** Every count of the report is consistent: each bucket splits into its
      two parts, the confusion matrix reproduces the ACCEPT and NO_MATCH
      splits, the buckets fit in the rows, and every metric is a proportion. */
  lemma ReportConsistent(results: seq<RawResult>, sheet: seq<(Cell, Cell)>)
    ensures var rep := Evaluate(results, sheet);
      && rep.total == |results|
      && 0 <= rep.acceptedCorrect && 0 <= rep.acceptedWrong && rep.acceptedCorrect + rep.acceptedWrong == rep.accept
      && 0 <= rep.rejectedShouldAccept && 0 <= rep.rejectedCorrectReject
      && rep.rejectedShouldAccept + rep.rejectedCorrectReject == rep.noMatch
      && 0 <= rep.humanShouldAccept && 0 <= rep.humanShouldReject && rep.humanShouldAccept + rep.humanShouldReject == rep.human
      && rep.tp == rep.acceptedCorrect && rep.fn == rep.rejectedShouldAccept
      && rep.tp + rep.fp == rep.accept && rep.fn + rep.tn == rep.noMatch
      && rep.accept + rep.human + rep.noMatch <= rep.total
      && 0.0 <= rep.metrics.precision <= 1.0 && 0.0 <= rep.metrics.recall <= 1.0 && 0.0 <= rep.metrics.f1 <= 1.0
      && 0.0 <= rep.metrics.accuracy <= 1.0 && 0.0 <= rep.metrics.specificity <= 1.0
      && 0.0 <= rep.metrics.npv <= 1.0 && 0.0 <= rep.metrics.balancedAccuracy <= 1.0
  {
    var rows := AttachAll(GroundTruth(sheet), results);
    SplitsWithinBuckets(rows, NoMatchStatus);
    SplitsWithinBuckets(rows, HumanStatus);
    ConfusionMatchesSplits(rows);
    BucketsWithinRows(rows);
    MetricsInUnit(CountConfusion(rows, TP), CountConfusion(rows, FP), CountConfusion(rows, FN), CountConfusion(rows, TN));
  }
}
