/** `slowermasteragent.py`: the evaluation agent without gates. Every
    variable is embedded, ranked on its raw scores and sent to the LLM, and
    `eval_results.csv` is rewritten after each file. */
module SlowerAgent {
  import opened Wrappers
  import opened Clients
  import opened Retrieval
  import opened OnlineClients
  import opened EvalRows

  const TopK: nat := 5

  /** The verdict after 429 to every LLM attempt. */
  const Exhausted: string := "max retries exceeded"

  /** The progress line prints `res['best_match']` and `res['confidence']`,
      so a verdict without either key raises KeyError after its row was
      appended. */
  predicate PrintsWithoutKeyError(v: Verdict) {
    !v.bestMatch.Missing? && !v.confidence.Missing?
  }

  /** What the embedding call, the ranking and the LLM call leave for one
      variable: the query, the raw scores, their top-five ranking and the two
      calls' runs. */
  datatype Asked = Asked(query: string, sims: seq<real>, idx: seq<nat>, embedded: Run<seq<real>>, answered: Run<Result<Verdict>>)

  /** Embed `Variable '<name>' from OEM dataset`, rank the raw scores and ask
      the LLM about the top five. */
  function Ask(env: Services, name: Option<string>): (a: Asked)
    requires WellFormed(env)
    ensures a.query == BaseQuery(name)
    ensures FirstTry <= a.embedded.calls <= EvalRetries && FirstTry <= a.answered.calls <= EvalRetries
    ensures Aligned(env.index, a.sims) && IsTopK(a.sims, TopK, a.idx)
  {
    var q := BaseQuery(name);
    var e := EvalEmbedLoop(env.embed(q), env.dim, FirstTry, []);
    EvalEmbedOutcome(env.embed(q), env.dim, FirstTry, []);
    var sims := env.similarity(e.answer);
    assert Aligned(env.index, sims);
    var idx := TopIndices(sims, TopK);
    var tops := Candidates(env.index, sims, idx);
    var l := EvalReasonLoop(env.llm(q, tops), env.parse, OriginalOf(name), Exhausted, FirstTry, []);
    EvalReasonOutcome(env.llm(q, tops), env.parse, OriginalOf(name), Exhausted, FirstTry, []);
    Asked(q, sims, idx, e, l)
  }

  /** The loop body of `run_eval` for one variable: the row from the LLM's
      verdict, or the exception that ends the run. Every variable is asked
      about, with at least one request to each service. */
  function SlowStep(env: Services, file: string, name: Option<string>): (r: Result<Step>)
    requires WellFormed(env)
    ensures r.Ok? ==> r.value.row.file == file && r.value.row.originalName == name
    ensures r.Ok? ==> 2 * FirstTry <= r.value.posts <= 2 * EvalRetries
  {
    StepOf(file, name, Ask(env, name))
  }

  /** What the answers `a` for one variable make of the loop body. */
  function StepOf(file: string, name: Option<string>, a: Asked): (r: Result<Step>)
    ensures r.Ok? ==> r.value.row.file == file && r.value.row.originalName == name
    ensures r.Ok? ==> r.value.posts == a.embedded.calls + a.answered.calls
  {
    match a.answered.answer
    case Err(m) => Err(m)
    case Ok(v) =>
      match RowFromVerdict(file, name, v)
      case Err(m) => Err(m)
      case Ok(row) =>
        if !PrintsWithoutKeyError(v) then Err("KeyError")
        else Ok(Step(row, a.embedded.calls + a.answered.calls, a.embedded.pauses + a.answered.pauses + [Pace]))
  }

  /** The body raises exactly when the LLM call raised, the verdict's
      confidence is `null`, or the verdict lacks a key the progress line
      prints; otherwise its row is the verdict's row. */
  lemma SlowStepOutcome(env: Services, file: string, name: Option<string>)
    requires WellFormed(env)
    ensures var a := Ask(env, name); var r := SlowStep(env, file, name);
      r.Err? <==> a.answered.answer.Err? || a.answered.answer.value.confidence.Null? || !PrintsWithoutKeyError(a.answered.answer.value)
    ensures var a := Ask(env, name); var r := SlowStep(env, file, name);
      r.Ok? ==> Ok(r.value.row) == RowFromVerdict(file, name, a.answered.answer.value)
  {
  }

  /** A verdict the agent wrote itself (an API error, a parse error or the
      exhausted retries) never stops the run, and its row counts as no
      match. */
  lemma DeclinedRowsAreNoMatch(file: string, name: Option<string>, why: string)
    ensures RowFromVerdict(file, name, Declined(OriginalOf(name), why)) == Ok(EvalRow(file, name, Some(""), 0.0, Said(why)))
    ensures PrintsWithoutKeyError(Declined(OriginalOf(name), why))
    ensures InBucket(0.0, NoMatch)
  {
  }

  /** Embedding, ranking and the LLM call, as statements. */
  method AskFor(env: Services, name: Option<string>) returns (a: Asked)
    requires WellFormed(env)
    ensures a == Ask(env, name)
  {
    var query := BaseQuery(name);
    var vec, eposts, esleeps := EmbedForEval(env.embed(query), env.dim);
    var sims := env.similarity(vec);
    assert Aligned(env.index, sims);
    var idx := TopIndices(sims, TopK);
    var tops := Candidates(env.index, sims, idx);
    var res, lposts, lsleeps := ReasonForEval(env.llm(query, tops), env.parse, name, Exhausted);
    a := Asked(query, sims, idx, Run(vec, eposts, esleeps), Run(res, lposts, lsleeps));
  }

  /** The loop body for the variables of `file`. */
  function NameStep(env: Services, file: string): (step: Option<string> --> Result<Step>)
    ensures forall name :: WellFormed(env) ==> step.requires(name) && step(name) == SlowStep(env, file, name)
  {
    name requires WellFormed(env) => SlowStep(env, file, name)
  }

  /** No gate: a file's loop that completes has one row per variable, in
      order, and made at least two requests for each. */
  lemma EveryVariableIsAsked(env: Services, file: string, names: seq<Option<string>>, p: Progress)
    requires WellFormed(env) && StepAll(NameStep(env, file), names, 0, p).Ok?
    ensures |StepAll(NameStep(env, file), names, 0, p).value.rows| == |p.rows| + |names|
    ensures RowsFor(StepAll(NameStep(env, file), names, 0, p).value.rows[|p.rows|..], file, names)
    ensures StepAll(NameStep(env, file), names, 0, p).value.posts >= p.posts + 2 * FirstTry * |names|
  {
    var step := NameStep(env, file);
    forall j | 0 <= j < |names| && step(names[j]).Ok?
      ensures step(names[j]).value.row.file == file && step(names[j]).value.row.originalName == names[j]
    {
      var r := SlowStep(env, file, names[j]);
    }
    StepAllRowsFor(step, names, p, file);
    AtLeastTwoEach(env, file, names, 0, p);
  }

  /** Each completed body made at least two requests. */
  lemma {:induction false} AtLeastTwoEach(env: Services, file: string, names: seq<Option<string>>, k: nat, p: Progress)
    requires WellFormed(env) && k <= |names| && StepAll(NameStep(env, file), names, k, p).Ok?
    ensures StepAll(NameStep(env, file), names, k, p).value.posts >= p.posts + 2 * FirstTry * (|names| - k)
    decreases |names| - k
  {
    if k < |names| {
      var s := NameStep(env, file)(names[k]).value;
      AtLeastTwoEach(env, file, names, k + 1, Then(p, s));
    }
  }

  /** One Turtle file after parsing: its base name and the names of its
      observable properties, in the order the graph yields them. */
  datatype TtlFile = TtlFile(base: string, names: seq<Option<string>>)

  /** The end of a run: how the loop ended, and what `eval_results.csv` holds
      as last written by the run (`None` when it was never written). */
  datatype SlowRun = SlowRun(outcome: Result<Progress>, csv: Option<seq<EvalRow>>)

  /** `for ttl in files` from the `f`-th file on: after each file the rows so
      far are written out. */
  function FilesLoop(env: Services, files: seq<TtlFile>, f: nat, p: Progress, csv: Option<seq<EvalRow>>): (r: SlowRun)
    requires WellFormed(env) && f <= |files|
    decreases |files| - f
  {
    if f == |files| then SlowRun(Ok(p), csv)
    else
      match StepAll(NameStep(env, files[f].base), files[f].names, 0, p)
      case Err(m) => SlowRun(Err(m), csv)
      case Ok(q) => FilesLoop(env, files, f + 1, q, Some(q.rows))
  }

  /** The number of variables of the files `f` to `g - 1`. */
  function VarCount(files: seq<TtlFile>, f: nat, g: nat): nat
    requires f <= g <= |files|
    decreases g - f
  {
    if f == g then 0 else |files[f].names| + VarCount(files, f + 1, g)
  }

  /** `csv` holds `before` rows and then those of the files `f` to `g - 1`,
      for some file `g` after `f` that is not the last. */
  predicate SavedWholeFiles(files: seq<TtlFile>, f: nat, before: nat, csv: Option<seq<EvalRow>>)
    requires f <= |files|
  {
    csv.Some? && exists g :: f < g < |files| && |csv.value| == before + VarCount(files, f, g)
  }

  /** The file on disk always holds whole files' rows: after a run that
      completes it holds every row (or is untouched when there are no
      files), and after an exception it holds the rows of the files before
      the failing one, or is untouched when the first file failed. */
  lemma {:induction false} CsvHoldsWholeFiles(env: Services, files: seq<TtlFile>, f: nat, p: Progress, csv: Option<seq<EvalRow>>)
    requires WellFormed(env) && f <= |files|
    ensures var r := FilesLoop(env, files, f, p, csv);
      r.outcome.Ok? ==> r.csv == (if f < |files| then Some(r.outcome.value.rows) else csv)
    ensures var r := FilesLoop(env, files, f, p, csv);
      r.outcome.Ok? ==> |r.outcome.value.rows| == |p.rows| + VarCount(files, f, |files|)
    ensures var r := FilesLoop(env, files, f, p, csv);
      r.outcome.Err? ==> r.csv == csv || SavedWholeFiles(files, f, |p.rows|, r.csv)
    decreases |files| - f
  {
    var r := FilesLoop(env, files, f, p, csv);
    if f < |files| {
      var step := NameStep(env, files[f].base);
      var vars := files[f].names;
      if StepAll(step, vars, 0, p).Ok? {
        var q := StepAll(step, vars, 0, p).value;
        StepAllLength(step, vars, 0, p);
        CsvHoldsWholeFiles(env, files, f + 1, q, Some(q.rows));
        assert r == FilesLoop(env, files, f + 1, q, Some(q.rows));
        if r.outcome.Err? {
          var g := if r.csv == Some(q.rows) then f + 1
            else var g :| f + 1 < g < |files| && |r.csv.value| == |q.rows| + VarCount(files, f + 1, g); g;
          assert f < g < |files| && |r.csv.value| == |p.rows| + VarCount(files, f, g);
        }
      } else {
        assert r == SlowRun(Err(StepAll(step, vars, 0, p).msg), csv);
      }
    }
  }

  /** The body as statements. */
  method EvalVariable(env: Services, file: string, name: Option<string>) returns (r: Result<Step>)
    requires WellFormed(env)
    ensures r == SlowStep(env, file, name)
  {
    var a := AskFor(env, name);
    r := Finish(file, name, a);
  }

  /** The rest of the body once both services have answered. */
  method Finish(file: string, name: Option<string>, a: Asked) returns (r: Result<Step>)
    ensures r == StepOf(file, name, a)
  {
    var res := a.answered.answer;
    if res.Err? {
      return Err(res.msg);
    }
    var row := RowFromVerdict(file, name, res.value);
    if row.Err? {
      return Err(row.msg);
    }
    if !PrintsWithoutKeyError(res.value) {
      return Err("KeyError");
    }
    return Ok(Step(row.value, a.embedded.calls + a.answered.calls, a.embedded.pauses + a.answered.pauses + [Pace]));
  }

  /** The body for a loop that knows it only as the value `step`. */
  method EvalStep(env: Services, file: string, name: Option<string>, step: Option<string> --> Result<Step>) returns (r: Result<Step>)
    requires WellFormed(env)
    requires forall n :: step.requires(n)
    requires forall n {:trigger SlowStep(env, file, n)} :: step(n) == SlowStep(env, file, n)
    ensures r == step(name)
  {
    r := EvalVariable(env, file, name);
  }

  /** The variable loop of one file, as statements, for its loop body
      `step`. */
  method EvalFile(env: Services, file: TtlFile, p: Progress, step: Option<string> --> Result<Step>) returns (r: Result<Progress>)
    requires WellFormed(env)
    requires forall n :: step.requires(n)
    requires forall n {:trigger SlowStep(env, file.base, n)} :: step(n) == SlowStep(env, file.base, n)
    ensures r == StepAll(step, file.names, 0, p)
  {
    var q := p;
    var k := 0;
    while k < |file.names|
      invariant 0 <= k <= |file.names|
      invariant StepAll(step, file.names, k, q) == StepAll(step, file.names, 0, p)
    {
      var s := EvalStep(env, file.base, file.names[k], step);
      StepAllNext(step, file.names, k, q);
      if s.Err? {
        return Err(s.msg);
      }
      q := Then(q, s.value);
      k := k + 1;
    }
    return Ok(q);
  }

  /** `run_eval()` over the parsed files: the file loop, rewriting the result
      file after each file. */
  method RunEval(env: Services, files: seq<TtlFile>) returns (r: Result<Progress>, csv: Option<seq<EvalRow>>)
    requires WellFormed(env)
    ensures SlowRun(r, csv) == FilesLoop(env, files, 0, Start, None)
  {
    var p := Start;
    csv := None;
    var f := 0;
    while f < |files|
      invariant 0 <= f <= |files|
      invariant FilesLoop(env, files, f, p, csv) == FilesLoop(env, files, 0, Start, None)
    {
      var q := EvalFile(env, files[f], p, NameStep(env, files[f].base));
      if q.Err? {
        return Err(q.msg), csv;
      }
      p := q.value;
      csv := Some(p.rows);
      f := f + 1;
    }
    return Ok(p), csv;
  }
}
