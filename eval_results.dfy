/** The global evaluation of `eval_results.py`: the predictions joined to the
    master mapping on normalised file and variable names, the four confusion
    counts and the guarded ratios built on them, coverage and out-of-domain
    accuracy, the domain of a canonical id, and the label order of the
    confusion matrix. */
module EvalResults {
  import opened Wrappers
  import opened Text
  import opened EcmsEval

  // ---------------------------------------------------------------------------
  // Normalised join keys
  // ---------------------------------------------------------------------------

  /** The key of a file column: as text (a blank cell reads "nan"), stripped,
      without a trailing ".ttl" (the pattern `\.ttl$`, matched before
      lower-casing), then lower-cased. */
  function FileKey(c: Cell): string {
    Lower(DropSuffix(Strip(CellText(c)), ".ttl"))
  }

  /** The key of a variable-name column: as text, stripped, lower-cased. */
  function NameKey(c: Cell): string {
    Lower(Strip(CellText(c)))
  }

  /** A canonical or predicted id: a blank cell is "", then stripped and
      lower-cased. */
  function IdKey(c: Cell): string {
    Lower(Strip(if c.Blank? then "" else c.text))
  }

  /** `fillna("").astype(str)` of the domain column. */
  function DomainText(c: Cell): string {
    if c.Blank? then "" else c.text
  }

  /** A text with no blank at either end. */
  predicate Trimmed(s: string) {
    s == [] || (!IsSpace(s[0]) && !IsSpace(s[|s| - 1]))
  }

  /** Stripping leaves a trimmed text with a suffix of non-blank ends
      alone. */
  lemma StripKeepsSuffixed(s: string, suffix: string)
    requires Trimmed(s)
    requires suffix != [] && !IsSpace(suffix[0]) && !IsSpace(suffix[|suffix| - 1])
    ensures Strip(s + suffix) == s + suffix
  {
    var t := s + suffix;
    assert t[|t| - 1] == suffix[|suffix| - 1];
    if s != [] {
      assert t[0] == s[0];
    } else {
      assert t[0] == suffix[0];
    }
  }

  /** A file named with ".ttl" gets the key of its name without it. */
  lemma TtlSuffixDropped(s: string)
    requires Trimmed(s)
    ensures FileKey(Written(s + ".ttl")) == Lower(s)
  {
    var t := s + ".ttl";
    StripKeepsSuffixed(s, ".ttl");
    assert DropSuffix(t, ".ttl") == s by {
      assert t[|t| - 4..] == ".ttl";
      assert t[..|t| - 4] == s;
    }
  }

  /** A text ending in a capital L does not end in ".ttl". */
  lemma CapitalEndKept(t: string)
    requires t != [] && t[|t| - 1] == 'L'
    ensures DropSuffix(t, ".ttl") == t
  {
  }

  /** A stripped file name without ".ttl" keys to its lower-case form. */
  lemma CleanFileKey(t: string)
    requires Strip(t) == t && DropSuffix(t, ".ttl") == t
    ensures FileKey(Written(t)) == Lower(t)
  {
  }

  /** The suffix is matched before lower-casing, so ".TTL" stays in the key. */
  lemma UpperTtlKept(s: string)
    requires Trimmed(s)
    ensures |FileKey(Written(s + ".TTL"))| == |s| + 4
  {
    var t := s + ".TTL";
    StripKeepsSuffixed(s, ".TTL");
    assert t[|t| - 1] == 'L';
    CapitalEndKept(t);
    CleanFileKey(t);
  }

  /** A file named with and without ".ttl" gets one key, so "OEMA_OEM.ttl"
      in one table joins "OEMA_OEM" in the other. */
  lemma TtlSpellingsJoin(s: string)
    requires Trimmed(s) && !EndsWith(s, ".ttl")
    ensures FileKey(Written(s + ".ttl")) == FileKey(Written(s))
  {
    TtlSuffixDropped(s);
    assert Strip(s) == s;
  }

  // ---------------------------------------------------------------------------
  // The left join
  // ---------------------------------------------------------------------------

  /** A row of the master mapping. */
  datatype Truth = Truth(file: Cell, name: Cell, canonical: Cell, domain: Cell)

  /** A row of the model's results. */
  datatype Prediction = Prediction(file: Cell, name: Cell, bestMatch: Cell)

  /** A row of the joined table; `canonical` is None where no row of the
      mapping joined (pandas' NaN). */
  datatype Merged = Merged(file: Cell, name: Cell, best: string, canonical: Option<string>, domain: string)

  predicate Joins(p: Prediction, t: Truth) {
    FileKey(p.file) == FileKey(t.file) && NameKey(p.name) == NameKey(t.name)
  }

  predicate SameKey(a: Truth, b: Truth) {
    FileKey(a.file) == FileKey(b.file) && NameKey(a.name) == NameKey(b.name)
  }

  /** The rows of the mapping that join `p`, in their order. */
  function MatchesOf(p: Prediction, truth: seq<Truth>): (ts: seq<Truth>)
    ensures |ts| <= |truth|
    ensures forall t :: t in ts <==> t in truth && Joins(p, t)
  {
    if truth == [] then []
    else
      assert truth == [truth[0]] + truth[1..];
      (if Joins(p, truth[0]) then [truth[0]] else []) + MatchesOf(p, truth[1..])
  }

  /** The joined rows of one prediction: row `i` carries the `i`-th joining
      row of the mapping; a prediction no row joins keeps one row, with no
      canonical id and an empty domain. */
  function RowsFor(p: Prediction, truth: seq<Truth>): (ms: seq<Merged>)
    ensures |ms| == if MatchesOf(p, truth) == [] then 1 else |MatchesOf(p, truth)|
    ensures forall i :: 0 <= i < |ms| ==> ms[i].file == p.file && ms[i].name == p.name && ms[i].best == IdKey(p.bestMatch)
    ensures MatchesOf(p, truth) == [] ==> ms[0].canonical == None && ms[0].domain == ""
    ensures forall i :: 0 <= i < |MatchesOf(p, truth)| ==>
              && ms[i].canonical == Some(IdKey(MatchesOf(p, truth)[i].canonical))
              && ms[i].domain == DomainText(MatchesOf(p, truth)[i].domain)
  {
    var ts := MatchesOf(p, truth);
    var best := IdKey(p.bestMatch);
    if ts == [] then
      [Merged(p.file, p.name, best, None, "")]
    else
      seq(|ts|, i requires 0 <= i < |ts| => Merged(p.file, p.name, best, Some(IdKey(ts[i].canonical)), DomainText(ts[i].domain)))
  }

  /** A joined row has no canonical id exactly when no row of the mapping
      joins its prediction; otherwise its id and domain come from one that
      does. */
  lemma RowsForOrigin(p: Prediction, truth: seq<Truth>, i: nat)
    requires i < |RowsFor(p, truth)|
    ensures var m := RowsFor(p, truth)[i];
      && (m.canonical.None? <==> forall t :: t in truth ==> !Joins(p, t))
      && (m.canonical.Some? ==>
            exists t :: t in truth && Joins(p, t) && m.canonical == Some(IdKey(t.canonical)) && m.domain == DomainText(t.domain))
  {
    var ts := MatchesOf(p, truth);
    if ts != [] {
      assert ts[i] in ts;
    }
  }

  /** `pred.merge(truth, how='left', ...)`: the joined rows of each
      prediction, in the order of the predictions. */
  function LeftMerge(preds: seq<Prediction>, truth: seq<Truth>): (ms: seq<Merged>)
    ensures |ms| >= |preds|
    ensures forall m :: m in ms ==>
              exists p :: p in preds && m.file == p.file && m.name == p.name && m.best == IdKey(p.bestMatch)
  {
    if preds == [] then []
    else
      var head := RowsFor(preds[0], truth);
      var tail := LeftMerge(preds[1..], truth);
      assert forall m :: m in head + tail ==> m in head || m in tail;
      head + tail
  }

  /** A prediction no row joins has no matches. */
  lemma {:induction false} NoJoinNoMatch(p: Prediction, truth: seq<Truth>)
    requires forall t :: t in truth ==> !Joins(p, t)
    ensures MatchesOf(p, truth) == []
  {
    if truth != [] {
      assert forall t :: t in truth[1..] ==> t in truth;
      NoJoinNoMatch(p, truth[1..]);
    }
  }

  /** Under distinct keys, the rows after a joining one do not join. */
  lemma NoSecondMatch(p: Prediction, truth: seq<Truth>)
    requires forall i, j :: 0 <= i < j < |truth| ==> !SameKey(truth[i], truth[j])
    requires truth != [] && Joins(p, truth[0])
    ensures MatchesOf(p, truth[1..]) == []
  {
    var rest := truth[1..];
    forall j | 0 <= j < |rest|
      ensures !Joins(p, rest[j])
    {
      assert rest[j] == truth[j + 1];
      assert !SameKey(truth[0], truth[j + 1]);
    }
    assert forall t :: t in rest ==> !Joins(p, t);
    NoJoinNoMatch(p, rest);
  }

  /** With at most one mapping row per key, a prediction joins at most one. */
  lemma {:induction false} AtMostOneMatch(p: Prediction, truth: seq<Truth>)
    requires forall i, j :: 0 <= i < j < |truth| ==> !SameKey(truth[i], truth[j])
    ensures |MatchesOf(p, truth)| <= 1
  {
    if truth != [] {
      if Joins(p, truth[0]) {
        NoSecondMatch(p, truth);
      } else {
        var rest := truth[1..];
        assert forall i, j :: 0 <= i < j < |rest| ==> !SameKey(rest[i], rest[j]) by {
          forall i, j | 0 <= i < j < |rest|
            ensures !SameKey(rest[i], rest[j])
          {
            assert rest[i] == truth[i + 1] && rest[j] == truth[j + 1];
          }
        }
        AtMostOneMatch(p, rest);
      }
    }
  }

  /** A mapping without repeated keys keeps one joined row per prediction. */
  lemma {:induction false} DistinctKeysKeepRows(preds: seq<Prediction>, truth: seq<Truth>)
    requires forall i, j :: 0 <= i < j < |truth| ==> !SameKey(truth[i], truth[j])
    ensures |LeftMerge(preds, truth)| == |preds|
  {
    if preds != [] {
      AtMostOneMatch(preds[0], truth);
      DistinctKeysKeepRows(preds[1..], truth);
    }
  }

  // ---------------------------------------------------------------------------
  // The confusion counts
  // ---------------------------------------------------------------------------

  /** `best_match_norm == canonical_id_norm`; NaN equals nothing. */
  predicate IsCorrect(m: Merged) {
    m.canonical == Some(m.best)
  }

  /** The four masks of the global metrics, as written, NaN being unequal to
      every text. */
  predicate InCell(m: Merged, c: Confusion) {
    match c
    case TP => m.canonical != Some("") && IsCorrect(m)
    case FP => m.best != "" && !IsCorrect(m)
    case FN => m.canonical != Some("") && m.best == ""
    case TN => m.canonical == Some("") && m.best == ""
  }

  /** Where a row lands, decided on the prediction first: an abstention is a
      true negative exactly when the mapping says "no match", a prediction a
      true positive exactly when it is correct. Every row satisfies exactly
      one of the four masks. */
  function CellOf(m: Merged): (c: Confusion)
    ensures forall d :: InCell(m, d) <==> d == c
  {
    if m.best == "" then (if m.canonical == Some("") then TN else FN)
    else if IsCorrect(m) then TP else FP
  }

  function CountCell(rows: seq<Merged>, c: Confusion): (n: nat)
    ensures n <= |rows|
  {
    if rows == [] then 0 else (if InCell(rows[0], c) then 1 else 0) + CountCell(rows[1..], c)
  }

  /** `merged['is_correct'].sum()`. */
  function CountCorrect(rows: seq<Merged>): (n: nat)
    ensures n <= |rows|
  {
    if rows == [] then 0 else (if IsCorrect(rows[0]) then 1 else 0) + CountCorrect(rows[1..])
  }

  /** The rows with a prediction. */
  function CountPredicted(rows: seq<Merged>): (n: nat)
    ensures n <= |rows|
  {
    if rows == [] then 0 else (if rows[0].best != "" then 1 else 0) + CountPredicted(rows[1..])
  }

  /** `ood_total`: the rows the mapping declares to have no match. */
  function CountOod(rows: seq<Merged>): (n: nat)
    ensures n <= |rows|
  {
    if rows == [] then 0 else (if rows[0].canonical == Some("") then 1 else 0) + CountOod(rows[1..])
  }

  /** The four counts split the rows; the correct rows are the true positives
      and the true negatives; the predictions are the true and false
      positives; every true negative is out of domain. */
  lemma {:induction false} CountsPartition(rows: seq<Merged>)
    ensures CountCell(rows, TP) + CountCell(rows, FP) + CountCell(rows, FN) + CountCell(rows, TN) == |rows|
    ensures CountCorrect(rows) == CountCell(rows, TP) + CountCell(rows, TN)
    ensures CountPredicted(rows) == CountCell(rows, TP) + CountCell(rows, FP)
    ensures CountCell(rows, TN) <= CountOod(rows)
  {
    if rows != [] {
      CountsPartition(rows[1..]);
      var c := CellOf(rows[0]);
      assert InCell(rows[0], c);
    }
  }

  // ---------------------------------------------------------------------------
  // The report
  // ---------------------------------------------------------------------------

  /** `part / whole if whole else 0.0` on counts: a proportion when the
      part lies within the whole, 0 for an empty whole, and otherwise the
      number that gives back the part when multiplied by the whole. */
  function Share(part: nat, whole: nat): (q: real)
    ensures 0.0 <= q
    ensures part <= whole ==> q <= 1.0
    ensures whole == 0 ==> q == 0.0
    ensures whole > 0 ==> q * whole as real == part as real
  {
    assert part <= whole ==> SafeDiv(part as real, whole as real) <= 1.0 by {
      if part <= whole {
        RatioInUnit(part as real, whole as real);
      }
    }
    SafeDiv(part as real, whole as real)
  }

  /** The global numbers the script prints; `coverage` and `abstention` are
      None where pandas' mean over no rows is NaN. */
  datatype Summary = Summary(total: nat, correct: nat, tp: nat, fp: nat, fn: nat, tn: nat,
                             accuracy: real, precision: real, recall: real, f1: real,
                             coverage: Option<real>, abstention: Option<real>,
                             oodCorrect: nat, oodTotal: nat, oodAccuracy: real)

  /** The counts and ratios of the global report: accuracy is the share of
      correct rows, precision and recall the shares of true positives among
      the positives and among the rows the mapping gives an id, coverage the
      share of rows with a prediction, abstention what coverage leaves, and
      out-of-domain accuracy the share of true negatives among the rows the
      mapping leaves without an id. */
  function Summarize(rows: seq<Merged>): (r: Summary)
    ensures r.total == |rows|
    ensures r.tp + r.fp + r.fn + r.tn == r.total
    ensures r.correct == r.tp + r.tn
    ensures r.oodCorrect == r.tn && r.oodCorrect <= r.oodTotal
  {
    CountsPartition(rows);
    var tp, fp, fn, tn := CountCell(rows, TP), CountCell(rows, FP), CountCell(rows, FN), CountCell(rows, TN);
    var precision := Share(tp, tp + fp);
    var recall := Share(tp, tp + fn);
    var coverage := if rows == [] then None else Some(Share(CountPredicted(rows), |rows|));
    Summary(|rows|, CountCorrect(rows), tp, fp, fn, tn,
            Share(CountCorrect(rows), |rows|), precision, recall, F1(precision, recall),
            coverage, if coverage.None? then None else Some(1.0 - coverage.value),
            tn, CountOod(rows), Share(tn, CountOod(rows)))
  }

  /** Every printed ratio is a proportion; an empty out-of-domain set gives
      0; coverage and abstention are NaN exactly for an empty table and
      otherwise add up to one. */
  lemma SummaryInUnit(rows: seq<Merged>)
    ensures var r := Summarize(rows);
      && 0.0 <= r.accuracy <= 1.0 && 0.0 <= r.precision <= 1.0
      && 0.0 <= r.recall <= 1.0 && 0.0 <= r.f1 <= 1.0
      && 0.0 <= r.oodAccuracy <= 1.0
      && (r.oodTotal == 0 ==> r.oodAccuracy == 0.0)
      && (r.coverage.Some? <==> r.total > 0)
      && (r.abstention.Some? <==> r.total > 0)
      && (r.total > 0 ==>
            && 0.0 <= r.coverage.value <= 1.0 && 0.0 <= r.abstention.value <= 1.0
            && r.coverage.value + r.abstention.value == 1.0)
  {
    CountsPartition(rows);
    var tp, fp, fn := CountCell(rows, TP), CountCell(rows, FP), CountCell(rows, FN);
    F1InUnit(Share(tp, tp + fp), Share(tp, tp + fn));
  }

  // ---------------------------------------------------------------------------
  // Domains
  // ---------------------------------------------------------------------------

  const NoDomain: string := "no_domain"
  const UnknownDomain: string := "unknown"

  /** The prefixes an underscore-separated id may name a domain with. */
  const DomainPrefixes: seq<string> := ["prop", "eng", "comp", "mat", "unit"]

  /** `extract_domain(id)`: "no_domain" for an empty label; the text before
      the first ':' when there is one; else the text before the first '_'
      when it is one of the known prefixes; else "unknown". */
  function ExtractDomain(id: string): (d: string)
    ensures id == "" ==> d == NoDomain
    ensures ':' in id ==> |d| < |id| && id[..|d|] == d && id[|d|] == ':' && ':' !in d
    ensures id != "" && ':' !in id ==>
              || d == UnknownDomain
              || (d in DomainPrefixes && |d| < |id| && id[..|d|] == d && id[|d|] == '_')
    ensures id != "" && ':' !in id && '_' !in id ==> d == UnknownDomain
    ensures forall p :: p in DomainPrefixes && ':' !in id && |p| < |id| && id[..|p|] == p && id[|p|] == '_' ==> d == p
  {
    if id == "" then NoDomain
    else if ':' in id then id[..Find(id, ':')]
    else if '_' in id && id[..Find(id, '_')] in DomainPrefixes then id[..Find(id, '_')]
    else UnknownDomain
  }

  /** `extract_domain(d) if d else "unknown"` on the filled domain column. */
  function DomainOf(d: string): (r: string)
    ensures d == "" ==> r == UnknownDomain
    ensures d != "" ==> r == ExtractDomain(d)
  {
    if d == "" then UnknownDomain else ExtractDomain(d)
  }

  /** A prediction that joined no mapping row keeps one row, which falls in
      the "unknown" domain rather than in "no_domain". */
  lemma UnmatchedIsUnknown(p: Prediction, truth: seq<Truth>)
    requires forall t :: t in truth ==> !Joins(p, t)
    ensures |RowsFor(p, truth)| == 1
    ensures RowsFor(p, truth)[0].canonical == None
    ensures DomainOf(RowsFor(p, truth)[0].domain) == UnknownDomain
  {
    NoJoinNoMatch(p, truth);
  }

  /** "prop_Thruster" is in the "prop" domain. */
  lemma PrefixDomainExample()
    ensures ExtractDomain("prop_Thruster") == "prop"
  {
    var a := "prop_Thruster";
    assert a[..4] == DomainPrefixes[0] && a[4] == '_';
    assert ':' !in a by {
      assert forall k :: 0 <= k < |a| ==> a[k] != ':';
    }
  }

  /** "eng:Power" is in the "eng" domain. */
  lemma CurieDomainExample()
    ensures ExtractDomain("eng:Power") == "eng"
  {
    var b := "eng:Power";
    assert b[3] == ':' && b[..3] == "eng";
  }

  // ---------------------------------------------------------------------------
  // Labels of the confusion matrix
  // ---------------------------------------------------------------------------

  const NoMatch: string := "no_match"
  const NanLabel: string := "nan"

  /** The true label: "no_match" for an empty canonical id, "nan" where no
      mapping row joined. */
  function TrueLabel(m: Merged): (l: string)
    ensures m.canonical.None? ==> l == NanLabel
    ensures m.canonical == Some("") ==> l == NoMatch
    ensures m.canonical.Some? && m.canonical != Some("") ==> l == m.canonical.value
  {
    match m.canonical
    case None => NanLabel
    case Some(c) => if c == "" then NoMatch else c
  }

  /** The predicted label: "no_match" for an abstention. */
  function PredLabel(m: Merged): (l: string)
    ensures l != ""
    ensures m.best != "" ==> l == m.best
  {
    if m.best == "" then NoMatch else m.best
  }

  /** Every true and predicted label of the rows. */
  function LabelPool(rows: seq<Merged>): (ls: seq<string>)
    ensures forall l :: l in ls <==> exists m :: m in rows && (l == TrueLabel(m) || l == PredLabel(m))
  {
    if rows == [] then []
    else
      assert rows == [rows[0]] + rows[1..];
      [TrueLabel(rows[0]), PredLabel(rows[0])] + LabelPool(rows[1..])
  }

  /** Python's `<` on `str`: by code point, a proper prefix first. */
  predicate StrLt(a: string, b: string)
    decreases |a|
  {
    if a == [] then b != []
    else if b == [] then false
    else if a[0] != b[0] then a[0] < b[0]
    else StrLt(a[1..], b[1..])
  }

  lemma {:induction false} StrLtIrreflexive(a: string)
    ensures !StrLt(a, a)
  {
    if a != [] {
      StrLtIrreflexive(a[1..]);
    }
  }

  lemma {:induction false} StrLtTransitive(a: string, b: string, c: string)
    requires StrLt(a, b) && StrLt(b, c)
    ensures StrLt(a, c)
    decreases |a|
  {
    if a != [] && b != [] && c != [] && a[0] == b[0] && b[0] == c[0] {
      StrLtTransitive(a[1..], b[1..], c[1..]);
    }
  }

  lemma {:induction false} StrLtTotal(a: string, b: string)
    requires a != b
    ensures StrLt(a, b) || StrLt(b, a)
    decreases |a|
  {
    if a != [] && b != [] && a[0] == b[0] {
      assert a == [a[0]] + a[1..] && b == [b[0]] + b[1..];
      StrLtTotal(a[1..], b[1..]);
    }
  }

  /** Strictly increasing in Python's order, hence without repeats. */
  predicate Increasing(xs: seq<string>) {
    forall i, j :: 0 <= i < j < |xs| ==> StrLt(xs[i], xs[j])
  }

  lemma IncreasingDistinct(xs: seq<string>)
    requires Increasing(xs)
    ensures forall i, j :: 0 <= i < j < |xs| ==> xs[i] != xs[j]
  {
    forall i, j | 0 <= i < j < |xs|
      ensures xs[i] != xs[j]
    {
      StrLtIrreflexive(xs[i]);
    }
  }

  lemma HeadBelowTail(xs: seq<string>)
    requires xs != [] && Increasing(xs)
    ensures forall y :: y in xs[1..] ==> StrLt(xs[0], y)
  {
    forall y | y in xs[1..]
      ensures StrLt(xs[0], y)
    {
      var j :| 0 <= j < |xs[1..]| && xs[1..][j] == y;
      assert xs[j + 1] == y;
    }
  }

  lemma ConsIncreasing(h: string, t: seq<string>)
    requires Increasing(t)
    requires forall y :: y in t ==> StrLt(h, y)
    ensures Increasing([h] + t)
  {
    var s := [h] + t;
    forall i, j | 0 <= i < j < |s|
      ensures StrLt(s[i], s[j])
    {
      if i == 0 {
        assert s[j] == t[j - 1];
      } else {
        assert s[i] == t[i - 1] && s[j] == t[j - 1];
      }
    }
  }

  /** `x` put in its place in an increasing sequence. */
  function Insert(x: string, xs: seq<string>): (r: seq<string>)
    requires Increasing(xs)
    ensures Increasing(r)
    ensures forall y :: y in r <==> y == x || y in xs
  {
    if xs == [] then [x]
    else if x == xs[0] then xs
    else if StrLt(x, xs[0]) then
      assert forall y :: y in xs ==> StrLt(x, y) by {
        HeadBelowTail(xs);
        forall y | y in xs
          ensures StrLt(x, y)
        {
          if y != xs[0] {
            assert y in xs[1..];
            StrLtTransitive(x, xs[0], y);
          }
        }
      }
      ConsIncreasing(x, xs);
      [x] + xs
    else
      StrLtTotal(x, xs[0]);
      HeadBelowTail(xs);
      assert Increasing(xs[1..]) by {
        forall i, j | 0 <= i < j < |xs[1..]|
          ensures StrLt(xs[1..][i], xs[1..][j])
        {
          assert xs[1..][i] == xs[i + 1] && xs[1..][j] == xs[j + 1];
        }
      }
      var rest := Insert(x, xs[1..]);
      ConsIncreasing(xs[0], rest);
      assert xs == [xs[0]] + xs[1..];
      [xs[0]] + rest
  }

  /** `sorted(set(xs))`. */
  function SortedSet(xs: seq<string>): (r: seq<string>)
    ensures Increasing(r)
    ensures forall y :: y in r <==> y in xs
  {
    if xs == [] then []
    else
      assert xs == [xs[0]] + xs[1..];
      Insert(xs[0], SortedSet(xs[1..]))
  }

  /** `[l for l in xs if l != v]`. */
  function Without(xs: seq<string>, v: string): (r: seq<string>)
    ensures forall y :: y in r <==> y in xs && y != v
    ensures Increasing(xs) ==> Increasing(r)
  {
    if xs == [] then []
    else
      var rest := Without(xs[1..], v);
      assert xs == [xs[0]] + xs[1..];
      if xs[0] == v then
        assert Increasing(xs) ==> Increasing(xs[1..]) by {
          if Increasing(xs) {
            forall i, j | 0 <= i < j < |xs[1..]|
              ensures StrLt(xs[1..][i], xs[1..][j])
            {
              assert xs[1..][i] == xs[i + 1] && xs[1..][j] == xs[j + 1];
            }
          }
        }
        rest
      else
        assert Increasing(xs) ==> Increasing([xs[0]] + rest) by {
          if Increasing(xs) {
            forall i, j | 0 <= i < j < |xs[1..]|
              ensures StrLt(xs[1..][i], xs[1..][j])
            {
              assert xs[1..][i] == xs[i + 1] && xs[1..][j] == xs[j + 1];
            }
            HeadBelowTail(xs);
            ConsIncreasing(xs[0], rest);
          }
        }
        [xs[0]] + rest
  }

  /** The labels of the confusion matrix: every true and predicted label
      once, in sorted order, except that "no_match", when present, comes
      last. */
  function ConfusionLabels(rows: seq<Merged>): (labels: seq<string>)
    ensures forall l :: l in labels <==> l in LabelPool(rows)
    ensures NoMatch in labels ==>
              && labels[|labels| - 1] == NoMatch
              && NoMatch !in labels[..|labels| - 1]
              && Increasing(labels[..|labels| - 1])
    ensures NoMatch !in labels ==> Increasing(labels)
  {
    var sorted := SortedSet(LabelPool(rows));
    if NoMatch in sorted then
      var front := Without(sorted, NoMatch);
      assert (front + [NoMatch])[..|front|] == front;
      front + [NoMatch]
    else sorted
  }

  /** No label of the matrix is repeated. */
  lemma ConfusionLabelsDistinct(rows: seq<Merged>)
    ensures var labels := ConfusionLabels(rows);
      forall i, j :: 0 <= i < j < |labels| ==> labels[i] != labels[j]
  {
    var labels := ConfusionLabels(rows);
    if NoMatch in labels {
      var front := labels[..|labels| - 1];
      IncreasingDistinct(front);
      forall i, j | 0 <= i < j < |labels|
        ensures labels[i] != labels[j]
      {
        if j == |labels| - 1 {
          assert labels[i] == front[i];
        } else {
          assert labels[i] == front[i] && labels[j] == front[j];
        }
      }
    } else {
      IncreasingDistinct(labels);
    }
  }
}
