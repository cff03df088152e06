/** What the two evaluation agents (the gated `masteragentcorrected.py` and
    the ungated `slowermasteragent.py`) share: the services they call, the
    query text, the rows they write to `eval_results.csv`, and the confidence
    summary they print at the end of `run_eval`. */
module EvalRows {
  import opened Wrappers
  import opened Text
  import opened Clients
  import opened Retrieval

  /** The outside world of one evaluation run. `embed(text)` is the embedding
      service's answer to each attempt at embedding `text`; `llm(query, tops)`
      the chat service's answer to each attempt at the prompt built from the
      query and the candidate list; `parse` is `json.loads` on the brace
      slice; `similarity` is the cosine similarity of a query vector against
      the stored ontology vectors; `dim` their width. */
  datatype Services = Services(
    embed: string -> nat -> Response<seq<real>>,
    llm: (string, seq<Candidate>) -> nat -> Response<string>,
    parse: string -> Option<Verdict>,
    similarity: seq<real> -> seq<real>,
    index: Index,
    dim: nat)

  /** Every score vector has one score per index entry. */
  ghost predicate WellFormed(env: Services) {
    forall v :: Aligned(env.index, env.similarity(v))
  }

  /** `f"{v['name']}"`: a variable without a name prints as `None`. */
  function NameText(name: Option<string>): string {
    match name
    case Some(n) => n
    case None => "None"
  }

  /** `f"Variable '{v['name']}' from OEM dataset"`. */
  function BaseQuery(name: Option<string>): (q: string)
    ensures StartsWith(q, "Variable '") && EndsWith(q, "' from OEM dataset")
    ensures |q| == |NameText(name)| + 28
  {
    "Variable '" + NameText(name) + "' from OEM dataset"
  }

  /** The query names its variable: two names that print differently give
      different queries. */
  lemma QueryDeterminesName(a: Option<string>, b: Option<string>)
    requires BaseQuery(a) == BaseQuery(b)
    ensures NameText(a) == NameText(b)
  {
    var qa, qb := BaseQuery(a), BaseQuery(b);
    assert NameText(a) == qa[10..|qa| - 18];
    assert NameText(b) == qb[10..|qb| - 18];
  }

  /** The `reason` column: a text, the low-similarity message (whose score is
      rendered with two decimals in the file), or `None` when the LLM sent
      `null`. */
  datatype Note = Said(text: string) | LowSimilarity(top: real) | NoNote

  /** One result row: `file`, `original_name` (None for a variable without a
      name), `best_match` (None when the LLM sent `null`), `confidence` and
      `reason`. */
  datatype EvalRow = EvalRow(file: string, originalName: Option<string>, bestMatch: Option<string>, confidence: real, reason: Note)

  /** `res.get("best_match", "")`: an absent key reads as "", a `null` stays
      `None`. */
  function BestMatchCell(f: Field<string>): (c: Option<string>)
    ensures c.None? <==> f.Null?
    ensures f.Missing? ==> c == Some("")
    ensures f.Value? ==> c == Some(f.v)
  {
    match f
    case Missing => Some("")
    case Null => None
    case Value(s) => Some(s)
  }

  /** `res.get("reason", "")`. */
  function ReasonCell(f: Field<string>): (n: Note)
    ensures n.NoNote? <==> f.Null?
    ensures f.Missing? ==> n == Said("")
    ensures f.Value? ==> n == Said(f.v)
  {
    match f
    case Missing => Said("")
    case Null => NoNote
    case Value(s) => Said(s)
  }

  /** `float(res.get("confidence", 0.0))`: `float(None)` raises TypeError. */
  function ConfidenceCell(f: Field<real>): (r: Result<real>)
    ensures r.Err? <==> f.Null?
    ensures f.Missing? ==> r == Ok(0.0)
    ensures f.Value? ==> r == Ok(f.v)
  {
    match f
    case Missing => Ok(0.0)
    case Null => Err("TypeError: float() argument must be a string or a number, not 'NoneType'")
    case Value(c) => Ok(c)
  }

  /** The row appended for an LLM verdict: the file, the variable's name and
      the verdict's three fields read with their defaults. Only a `null`
      confidence stops the run. */
  function RowFromVerdict(file: string, name: Option<string>, v: Verdict): (r: Result<EvalRow>)
    ensures r.Err? <==> v.confidence.Null?
    ensures r.Ok? ==> r.value.file == file && r.value.originalName == name
    ensures r.Ok? ==> r.value.bestMatch == BestMatchCell(v.bestMatch) && r.value.reason == ReasonCell(v.reason)
    ensures r.Ok? ==> Ok(r.value.confidence) == ConfidenceCell(v.confidence)
  {
    match ConfidenceCell(v.confidence)
    case Err(m) => Err(m)
    case Ok(c) => Ok(EvalRow(file, name, BestMatchCell(v.bestMatch), c, ReasonCell(v.reason)))
  }

  /** What handling one variable leaves behind: its row, the POSTs it made
      and the sleeps, in order. */
  datatype Step = Step(row: EvalRow, posts: nat, pauses: seq<Pause>)

  /** The state of a run: the rows so far, the POSTs and the sleeps. */
  datatype Progress = Progress(rows: seq<EvalRow>, posts: nat, pauses: seq<Pause>)

  /** The start of a run: no rows, no requests, no sleeps. */
  const Start: Progress := Progress([], 0, [])

  /** `results.append(row)` after the step's requests and sleeps. */
  function Then(p: Progress, s: Step): (q: Progress)
    ensures q.rows == p.rows + [s.row] && q.posts == p.posts + s.posts
  {
    Progress(p.rows + [s.row], p.posts + s.posts, p.pauses + s.pauses)
  }

  /** `for v in vars_list` from the `k`-th variable on, where `step(v)` is
      everything the loop body does for `v`: each row is appended in turn,
      and an exception from a body ends the loop and the run. */
  function StepAll<V>(step: V --> Result<Step>, vars: seq<V>, k: nat, p: Progress): (r: Result<Progress>)
    requires k <= |vars| && forall j :: k <= j < |vars| ==> step.requires(vars[j])
    decreases |vars| - k
  {
    if k == |vars| then Ok(p)
    else
      match step(vars[k])
      case Err(m) => Err(m)
      case Ok(s) => StepAll(step, vars, k + 1, Then(p, s))
  }

  /** One turn of the loop: the body at `k` either raises, which is the
      loop's outcome, or adds its step and the loop goes on at `k + 1`. */
  lemma StepAllNext<V>(step: V --> Result<Step>, vars: seq<V>, k: nat, p: Progress)
    requires k < |vars| && forall j :: k <= j < |vars| ==> step.requires(vars[j])
    ensures step(vars[k]).Err? ==> StepAll(step, vars, k, p) == Err(step(vars[k]).msg)
    ensures step(vars[k]).Ok? ==> StepAll(step, vars, k, p) == StepAll(step, vars, k + 1, Then(p, step(vars[k]).value))
  {
  }

  /** A loop that completes appends one row per variable, in order, after the
      rows it started with, and every fact each body's row satisfies holds of
      the row at that variable's position. */
  lemma {:induction false} StepAllRows<V>(step: V --> Result<Step>, vars: seq<V>, k: nat, p: Progress, fact: (V, EvalRow) -> bool)
    requires k <= |vars| && forall j :: k <= j < |vars| ==> step.requires(vars[j])
    requires forall j :: k <= j < |vars| && step(vars[j]).Ok? ==> fact(vars[j], step(vars[j]).value.row)
    requires StepAll(step, vars, k, p).Ok?
    ensures var q := StepAll(step, vars, k, p).value;
      |q.rows| == |p.rows| + |vars| - k && q.rows[..|p.rows|] == p.rows
    ensures var q := StepAll(step, vars, k, p).value;
      forall i :: |p.rows| <= i < |q.rows| ==> fact(vars[i - |p.rows| + k], q.rows[i])
    decreases |vars| - k
  {
    if k < |vars| {
      var s := step(vars[k]).value;
      var p' := Then(p, s);
      StepAllRows(step, vars, k + 1, p', fact);
      var q := StepAll(step, vars, k + 1, p').value;
      assert q == StepAll(step, vars, k, p).value;
      assert q.rows[..|p'.rows|] == p'.rows;
      assert q.rows[..|p.rows|] == p.rows by {
        assert q.rows[..|p.rows|] == q.rows[..|p'.rows|][..|p.rows|];
      }
      forall i | |p.rows| <= i < |q.rows|
        ensures fact(vars[i - |p.rows| + k], q.rows[i])
      {
        if i > |p.rows| {
          assert i - |p'.rows| + (k + 1) == i - |p.rows| + k;
        } else {
          assert q.rows[i] == q.rows[..|p'.rows|][i] == s.row;
        }
      }
    }
  }

  /** A loop that completes appends exactly one row per variable after the
      rows it started with. */
  lemma {:induction false} StepAllLength<V>(step: V --> Result<Step>, vars: seq<V>, k: nat, p: Progress)
    requires k <= |vars| && forall j :: k <= j < |vars| ==> step.requires(vars[j])
    requires StepAll(step, vars, k, p).Ok?
    ensures |StepAll(step, vars, k, p).value.rows| == |p.rows| + |vars| - k
    decreases |vars| - k
  {
    if k < |vars| {
      StepAllLength(step, vars, k + 1, Then(p, step(vars[k]).value));
    }
  }

  /** When no body makes more than `most` requests, the loop makes at most
      `most` per variable. */
  lemma {:induction false} StepAllPosts<V>(step: V --> Result<Step>, vars: seq<V>, k: nat, p: Progress, most: nat)
    requires k <= |vars| && forall j :: k <= j < |vars| ==> step.requires(vars[j])
    requires forall j :: k <= j < |vars| && step(vars[j]).Ok? ==> step(vars[j]).value.posts <= most
    requires StepAll(step, vars, k, p).Ok?
    ensures p.posts <= StepAll(step, vars, k, p).value.posts <= p.posts + most * (|vars| - k)
    decreases |vars| - k
  {
    if k < |vars| {
      StepAllPosts(step, vars, k + 1, Then(p, step(vars[k]).value), most);
      assert most * (|vars| - k) == most + most * (|vars| - (k + 1));
    }
  }

  /** Bodies that make no request and do not sleep leave the request count
      and the sleeps alone, and the loop completes. */
  lemma {:induction false} StepAllFree<V>(step: V --> Result<Step>, vars: seq<V>, k: nat, p: Progress)
    requires k <= |vars| && forall j :: k <= j < |vars| ==> step.requires(vars[j])
    requires forall j :: k <= j < |vars| ==> step(vars[j]).Ok? && step(vars[j]).value.posts == 0 && step(vars[j]).value.pauses == []
    ensures StepAll(step, vars, k, p).Ok?
    ensures StepAll(step, vars, k, p).value.posts == p.posts && StepAll(step, vars, k, p).value.pauses == p.pauses
    decreases |vars| - k
  {
    if k < |vars| {
      var s := step(vars[k]).value;
      assert Then(p, s).pauses == p.pauses;
      StepAllFree(step, vars, k + 1, Then(p, s));
    }
  }

  /** The loop stops early only at a body that raised. */
  lemma {:induction false} StepAllFailsOnlyOnError<V>(step: V --> Result<Step>, vars: seq<V>, k: nat, p: Progress)
    requires k <= |vars| && forall j :: k <= j < |vars| ==> step.requires(vars[j])
    requires StepAll(step, vars, k, p).Err?
    ensures exists j :: k <= j < |vars| && step(vars[j]).Err?
    decreases |vars| - k
  {
    if step(vars[k]).Ok? {
      StepAllFailsOnlyOnError(step, vars, k + 1, Then(p, step(vars[k]).value));
    }
  }

  /** The rows `rows` are one per variable of `names`, in order, all for `file`. */
  predicate RowsFor(rows: seq<EvalRow>, file: string, names: seq<Option<string>>) {
    |rows| == |names| && forall j :: 0 <= j < |rows| ==> rows[j].file == file && rows[j].originalName == names[j]
  }

  /** A completed loop whose every body labels its row with the file and
      the variable appends rows labelled in the variables' order. */
  lemma StepAllRowsFor(step: Option<string> --> Result<Step>, names: seq<Option<string>>, p: Progress, file: string)
    requires forall j :: 0 <= j < |names| ==> step.requires(names[j])
    requires forall j :: 0 <= j < |names| && step(names[j]).Ok? ==>
      step(names[j]).value.row.file == file && step(names[j]).value.row.originalName == names[j]
    requires StepAll(step, names, 0, p).Ok?
    ensures |StepAll(step, names, 0, p).value.rows| == |p.rows| + |names|
    ensures RowsFor(StepAll(step, names, 0, p).value.rows[|p.rows|..], file, names)
  {
    var fact := (name: Option<string>, row: EvalRow) => row.file == file && row.originalName == name;
    StepAllRows(step, names, 0, p, fact);
    var q := StepAll(step, names, 0, p).value;
    var rows := q.rows[|p.rows|..];
    forall j | 0 <= j < |rows|
      ensures rows[j].file == file && rows[j].originalName == names[j]
    {
      assert rows[j] == q.rows[|p.rows| + j];
      assert fact(names[|p.rows| + j - |p.rows|], q.rows[|p.rows| + j]);
    }
  }

  /** The three summary lines: `>= 0.7`, `0.4 <= c < 0.7` and `< 0.4`. */
  datatype Bucket = High | Low | NoMatch

  const HighConf: real := 0.7
  const LowConf: real := 0.4

  /** The generator condition of each summary line, as written. */
  predicate InBucket(c: real, b: Bucket) {
    match b
    case High => c >= HighConf
    case Low => LowConf <= c < HighConf
    case NoMatch => c < LowConf
  }

  /** Every confidence satisfies exactly one of the three conditions. */
  lemma OneBucket(c: real)
    ensures exists b :: InBucket(c, b)
    ensures forall b, b' :: InBucket(c, b) && InBucket(c, b') ==> b == b'
  {
    if c >= HighConf {
      assert InBucket(c, High);
    } else if c >= LowConf {
      assert InBucket(c, Low);
    } else {
      assert InBucket(c, NoMatch);
    }
  }

  /** `sum(1 for r in results if <condition of b>)`. */
  function CountIn(rows: seq<EvalRow>, b: Bucket): (n: nat)
    ensures n <= |rows|
  {
    if rows == [] then 0
    else CountIn(rows[..|rows| - 1], b) + (if InBucket(rows[|rows| - 1].confidence, b) then 1 else 0)
  }

  /** The three counts add up to the number of rows. */
  lemma {:induction false} SummaryAddsUp(rows: seq<EvalRow>)
    ensures CountIn(rows, High) + CountIn(rows, Low) + CountIn(rows, NoMatch) == |rows|
  {
    if rows != [] {
      SummaryAddsUp(rows[..|rows| - 1]);
      OneBucket(rows[|rows| - 1].confidence);
    }
  }

  /** Rows of confidence 0.0 (every gated or declined row) count as no match. */
  lemma {:induction false} ZeroRowsCountAsNoMatch(rows: seq<EvalRow>)
    requires forall i :: 0 <= i < |rows| ==> rows[i].confidence == 0.0
    ensures CountIn(rows, NoMatch) == |rows| && CountIn(rows, High) == 0 && CountIn(rows, Low) == 0
  {
    if rows != [] {
      ZeroRowsCountAsNoMatch(rows[..|rows| - 1]);
    }
  }

  /** The printed summary: the total and the three confidence counts. */
  datatype Summary = Summary(total: nat, high: nat, low: nat, none: nat)

  /** `total`, `high`, `low` and `none` of the summary block. */
  function Summarize(rows: seq<EvalRow>): (s: Summary)
    ensures s.total == |rows| == s.high + s.low + s.none
  {
    SummaryAddsUp(rows);
    Summary(|rows|, CountIn(rows, High), CountIn(rows, Low), CountIn(rows, NoMatch))
  }
}
