/** `masteragentcorrected.py`: the evaluation agent with unit extraction, an
    out-of-domain keyword gate, unit-adjusted retrieval scores and three ways
    to abstain. */
module CorrectedAgent {
  import opened Wrappers
  import opened Text
  import opened Clients
  import opened Retrieval
  import opened OnlineClients
  import opened EvalRows
  import opened Units

  const TopK: nat := 5
  const MinSim: real := 0.45
  const SimGap: real := 0.06

  const OodReason: string := "Rejected by OOD keyword gate"
  const AutoReason: string := "Auto-picked by adjusted similarity margin"
  const UnitAbstainReason: string := "Abstained: incompatible units"
  /** The verdict when every attempt at the LLM was rate limited. */
  const Exhausted: string := "max retries"

  // ---------------------------------------------------------------------------
  // Out-of-domain gate
  // ---------------------------------------------------------------------------

  /** `OOD_PATTERNS`: each is `\b` and a literal; `\bFW[_-]` is the two
      literals `FW_` and `FW-`. */
  const OodTokens: seq<string> := ["Pkt", "PLC", "FW_", "FW-", "DbgVar", "MemTemp", "CabTemp", "Checksum", "VibAlarm"]

  /** `is_ood(name)`: False for a missing or empty name, else some pattern
      matches, ignoring case. */
  predicate IsOod(name: Option<string>) {
    name.Some? && name.value != "" && exists t :: t in OodTokens && HasToken(name.value, t)
  }

  /** "FW" must be followed by `_` or `-`: "FWVersion" passes the gate and
      "fw-version" does not. */
  lemma FirmwareNeedsSeparator()
    ensures IsOod(Some("fw-version"))
    ensures !IsOod(Some("FWVersion"))
  {
    var x := "fw-version";
    assert Lower(x[0..3]) == Lower("FW-");
    assert TokenAt(x, 0, "FW-");
    assert "FW-" in OodTokens;
    var s := "FWVersion";
    assert forall i :: 0 <= i < |s| ==> IsWordChar(s[i]);
    forall t | t in OodTokens
      ensures !HasToken(s, t)
    {
      if |t| <= |s| {
        var a, b := Lower(s[0..|t|]), Lower(t);
        if t in ["FW_", "FW-"] {
          assert a[2] == 'v' && b[2] != 'v';
        } else if t in ["Pkt", "PLC"] {
          assert a[0] == 'f' && b[0] == 'p';
        } else {
          assert a[0] == 'f' && b[0] != 'f';
        }
      }
      WordOnlyNoToken(s, t);
    }
  }

  // ---------------------------------------------------------------------------
  // One variable
  // ---------------------------------------------------------------------------

  /** A variable as read from the graph: its FMU name (absent for some) and
      the string of its `qudt:unit` object ("" when there is none). */
  datatype RawVar = RawVar(name: Option<string>, unitUri: string)

  /** `{"name": name, "unit": unit_tok}` of `vars_list`. */
  datatype Var = Var(name: Option<string>, unit: string)

  /** `normalize_unit_token(u_val) or infer_unit_from_varname(name)`. */
  function Extract(raw: RawVar): (v: Var)
    ensures v.name == raw.name
    ensures v.unit == "" || v.unit in CanonicalUnits
    ensures NormalizeUnitToken(raw.unitUri) != "" ==> v.unit == NormalizeUnitToken(raw.unitUri)
    ensures NormalizeUnitToken(raw.unitUri) == "" ==> v.unit == InferUnitFromVarname(raw.name)
  {
    var u := NormalizeUnitToken(raw.unitUri);
    Var(raw.name, if u != "" then u else InferUnitFromVarname(raw.name))
  }

  /** The query, with ` [unit=...]` when the unit is known. */
  function Query(v: Var): (q: string)
    ensures StartsWith(q, BaseQuery(v.name))
    ensures EndsWith(q, "]") <==> v.unit != ""
  {
    var base := BaseQuery(v.name);
    if v.unit == "" then
      assert base[|base| - 1] == 't';
      base
    else
      var q := base + " [unit=" + v.unit + "]";
      assert q[..|base|] == base;
      q
  }

  /** The weight of each candidate: the compatibility of the variable's unit
      with the unit its id carries. */
  function Weight(unit: string, id: string): real {
    UnitCompatScore(unit, UnitFromCandidateId(id))
  }

  /** The weight of every candidate, in index order. */
  function Weights(unit: string, ids: seq<string>): (ws: seq<real>)
    ensures |ws| == |ids|
    decreases |ids|
  {
    if ids == [] then [] else Weights(unit, ids[..|ids| - 1]) + [Weight(unit, ids[|ids| - 1])]
  }

  /** The weight of candidate i is that of its id. */
  lemma {:induction false} WeightsAt(unit: string, ids: seq<string>, i: nat)
    requires i < |ids|
    ensures Weights(unit, ids)[i] == Weight(unit, ids[i])
    decreases |ids|
  {
    if i < |ids| - 1 {
      WeightsAt(unit, ids[..|ids| - 1], i);
    }
  }

  /** `adj_sims`: each raw score times its candidate's weight. */
  predicate IsAdjusted(sims: seq<real>, ids: seq<string>, unit: string, adj: seq<real>) {
    |adj| == |sims| == |ids| && forall i :: 0 <= i < |adj| ==> adj[i] == sims[i] * Weights(unit, ids)[i]
  }

  /** Scores times weights, index by index. */
  function Scale(sims: seq<real>, ws: seq<real>): (adj: seq<real>)
    requires |ws| == |sims|
    ensures |adj| == |sims|
    ensures forall i :: 0 <= i < |adj| ==> adj[i] == sims[i] * ws[i]
  {
    seq(|sims|, i requires 0 <= i < |sims| => sims[i] * ws[i])
  }

  /** Appending one scaled score extends the scaled prefix by one. */
  lemma ScaleSnoc(sims: seq<real>, ws: seq<real>, i: nat, adj: seq<real>, w: real)
    requires |ws| == |sims| && i < |sims|
    requires adj == Scale(sims[..i], ws[..i]) && w == ws[i]
    ensures adj + [sims[i] * w] == Scale(sims[..i + 1], ws[..i + 1])
  {
    var a, b := Scale(sims[..i + 1], ws[..i + 1]), adj + [sims[i] * w];
    assert |a| == |b|;
    forall k | 0 <= k < |a|
      ensures a[k] == b[k]
    {
      assert sims[..i + 1][k] == sims[k] && ws[..i + 1][k] == ws[k];
    }
  }

  /** The adjusted scores as a value. */
  function Adjusted(sims: seq<real>, ids: seq<string>, unit: string): (adj: seq<real>)
    requires |ids| == |sims|
    ensures IsAdjusted(sims, ids, unit, adj)
  {
    Scale(sims, Weights(unit, ids))
  }

  /** The loop that builds `adj_sims`. */
  method AdjustScores(sims: seq<real>, ids: seq<string>, unit: string) returns (adj: seq<real>)
    requires |ids| == |sims|
    ensures adj == Adjusted(sims, ids, unit)
  {
    ghost var ws := Weights(unit, ids);
    adj := [];
    var i := 0;
    while i < |sims|
      invariant 0 <= i <= |sims|
      invariant adj == Scale(sims[..i], ws[..i])
    {
      var w := WeightOf(unit, ids, i);
      ScaleSnoc(sims, ws, i, adj, w);
      adj := adj + [sims[i] * w];
      i := i + 1;
    }
    assert sims[..i] == sims && ws[..i] == ws;
  }

  /** The weight of one candidate: its unit, then the compatibility. */
  method WeightOf(unit: string, ids: seq<string>, i: nat) returns (w: real)
    requires i < |ids|
    ensures w == Weights(unit, ids)[i]
  {
    var cu := UnitFromCandidateId(ids[i]);
    w := UnitCompatScore(unit, cu);
    WeightsAt(unit, ids, i);
  }

  /** A non-negative score is at most halved and never raised; it is kept
      whole for a candidate of the variable's own unit and halved for one of
      a clashing known unit. */
  lemma AdjustedBounds(sims: seq<real>, ids: seq<string>, unit: string, adj: seq<real>, i: nat)
    requires IsAdjusted(sims, ids, unit, adj) && i < |adj| && sims[i] >= 0.0
    ensures 0.5 * sims[i] <= adj[i] <= sims[i]
    ensures UnitFromCandidateId(ids[i]) == unit ==> adj[i] == sims[i]
    ensures UnitCompatScore(unit, UnitFromCandidateId(ids[i])) < CompatFloor ==> adj[i] == 0.5 * sims[i]
  {
    var w := Weights(unit, ids)[i];
    WeightsAt(unit, ids, i);
    assert adj[i] == sims[i] * w;
    assert w == UnitCompatScore(unit, UnitFromCandidateId(ids[i]));
    if w == 1.0 {
    } else if w == 0.85 {
    } else if w == 0.8 {
    } else {
      assert w == 0.5;
    }
  }

  /** The three outcomes decided from the adjusted scores alone. */
  datatype Screened = Abstain(row: EvalRow) | AutoPick(row: EvalRow) | AskLlm

  /** `min(0.99, max(0.5, top))`. */
  function AutoConfidence(top: real): (c: real)
    ensures 0.5 <= c <= 0.99
    ensures 0.5 <= top <= 0.99 ==> c == top
    ensures top < 0.5 ==> c == 0.5
    ensures top > 0.99 ==> c == 0.99
  {
    var m := if top >= 0.5 then top else 0.5;
    if m <= 0.99 then m else 0.99
  }

  /** The low-similarity abstain and the margin auto-pick, over the ranking
      `idx` of the adjusted scores `adj`. */
  function Screen(file: string, name: Option<string>, ids: seq<string>, adj: seq<real>, idx: seq<nat>): (s: Screened)
    requires |ids| == |adj| && InRange(idx, |adj|)
    ensures s.Abstain? <==> |idx| == 0 || adj[idx[0]] < MinSim
    ensures s.Abstain? ==> s.row == EvalRow(file, name, Some(""), 0.0, LowSimilarity(if |idx| > 0 then adj[idx[0]] else 0.0))
    ensures s.AutoPick? <==> |idx| >= 2 && adj[idx[0]] >= MinSim && adj[idx[0]] - adj[idx[1]] >= SimGap
    ensures s.AutoPick? ==> s.row.file == file && s.row.originalName == name && s.row.bestMatch == Some(ids[idx[0]])
    ensures s.AutoPick? ==> 0.5 <= s.row.confidence <= 0.99 && s.row.reason == Said(AutoReason)
    ensures s.AutoPick? ==> s.row.confidence == AutoConfidence(adj[idx[0]])
  {
    if |idx| == 0 || adj[idx[0]] < MinSim then
      Abstain(EvalRow(file, name, Some(""), 0.0, LowSimilarity(if |idx| > 0 then adj[idx[0]] else 0.0)))
    else if |idx| >= 2 && adj[idx[0]] - adj[idx[1]] >= SimGap then
      AutoPick(EvalRow(file, name, Some(ids[idx[0]]), AutoConfidence(adj[idx[0]]), Said(AutoReason)))
    else AskLlm
  }

  /** The outcome does not depend on how ties are ordered: two top-K rankings
      of the same scores take the same branch with the same confidence. */
  lemma ScreenIgnoresTies(file: string, name: Option<string>, ids: seq<string>, adj: seq<real>, a: seq<nat>, b: seq<nat>)
    requires |ids| == |adj| && IsTopK(adj, TopK, a) && IsTopK(adj, TopK, b)
    ensures Screen(file, name, ids, adj, a).Abstain? == Screen(file, name, ids, adj, b).Abstain?
    ensures Screen(file, name, ids, adj, a).AutoPick? == Screen(file, name, ids, adj, b).AutoPick?
    ensures !Screen(file, name, ids, adj, a).AskLlm? ==>
      Screen(file, name, ids, adj, a).row.confidence == Screen(file, name, ids, adj, b).row.confidence
  {
    if |a| > 0 {
      RankScoresAgree(adj, TopK, a, b, 0);
    }
    if |a| > 1 {
      RankScoresAgree(adj, TopK, a, b, 1);
    }
    ScreenDependsOnTopTwo(file, name, ids, adj, a, b);
  }

  /** The branch and the confidence depend only on the two best scores. */
  lemma ScreenDependsOnTopTwo(file: string, name: Option<string>, ids: seq<string>, adj: seq<real>, a: seq<nat>, b: seq<nat>)
    requires |ids| == |adj| && InRange(a, |adj|) && InRange(b, |adj|) && |a| == |b|
    requires |a| > 0 ==> adj[a[0]] == adj[b[0]]
    requires |a| > 1 ==> adj[a[1]] == adj[b[1]]
    ensures Screen(file, name, ids, adj, a).Abstain? == Screen(file, name, ids, adj, b).Abstain?
    ensures Screen(file, name, ids, adj, a).AutoPick? == Screen(file, name, ids, adj, b).AutoPick?
    ensures !Screen(file, name, ids, adj, a).AskLlm? ==>
      Screen(file, name, ids, adj, a).row.confidence == Screen(file, name, ids, adj, b).row.confidence
  {
  }

  /** The LLM named a candidate whose unit clashes with the variable's. */
  predicate Incompatible(unit: string, best: Field<string>) {
    best.Value? && best.v != "" && UnitCompatScore(unit, UnitFromCandidateId(best.v)) < CompatFloor
  }

  /** The row for the LLM's answer: a named match of clashing unit is
      replaced by the unit abstain, then the row is read from the verdict. A
      network error raised by the LLM call, and a `null` confidence that
      survives, stop the run. */
  function AfterLlm(file: string, v: Var, res: Result<Verdict>): (r: Result<EvalRow>)
    ensures r.Err? <==> res.Err? || (!Incompatible(v.unit, res.value.bestMatch) && res.value.confidence.Null?)
    ensures res.Ok? && Incompatible(v.unit, res.value.bestMatch) ==>
      r == Ok(EvalRow(file, v.name, Some(""), 0.0, Said(UnitAbstainReason)))
    ensures res.Ok? && !Incompatible(v.unit, res.value.bestMatch) ==> r == RowFromVerdict(file, v.name, res.value)
    ensures r.Ok? ==> r.value.file == file && r.value.originalName == v.name
    ensures r.Ok? && r.value.bestMatch.Some? && r.value.bestMatch.value != "" ==>
      UnitCompatScore(v.unit, UnitFromCandidateId(r.value.bestMatch.value)) >= CompatFloor
  {
    match res
    case Err(m) => Err(m)
    case Ok(verdict) =>
      if Incompatible(v.unit, verdict.bestMatch) then
        Ok(EvalRow(file, v.name, Some(""), 0.0, Said(UnitAbstainReason)))
      else RowFromVerdict(file, v.name, verdict)
  }

  /** The LLM is overruled only when both units are known, differ and are
      not rpm against rev/s. */
  lemma AbstainNeedsKnownUnits(unit: string, best: string)
    requires Incompatible(unit, Value(best))
    ensures unit != "" && UnitFromCandidateId(best) != "" && unit != UnitFromCandidateId(best)
    ensures {unit, UnitFromCandidateId(best)} != {"rpm", "rev/s"}
  {
    CompatBelowFloor(unit, UnitFromCandidateId(best));
  }

  /** A row naming a match is an auto-pick, with its confidence in
      [0.5, 0.99], or an LLM pick whose unit is compatible. */
  predicate ConfidentMatchExplained(unit: string, row: EvalRow) {
    row.bestMatch.Some? && row.bestMatch.value != "" ==>
      (0.5 <= row.confidence <= 0.99 && row.reason == Said(AutoReason)) ||
      UnitCompatScore(unit, UnitFromCandidateId(row.bestMatch.value)) >= CompatFloor
  }

  /** What the embedding call and the ranking leave for one variable that
      passed the gate: the query, the embedding POSTs and sleeps, the
      adjusted scores and their top-K ranking. */
  datatype Retrieved = Retrieved(query: string, posts: nat, pauses: seq<Pause>, adj: seq<real>, idx: seq<nat>)

  /** Embed the query, score it against the index, adjust by unit and rank. */
  function Retrieve(env: Services, v: Var): (t: Retrieved)
    requires WellFormed(env)
    ensures t.query == Query(v)
    ensures FirstTry <= t.posts <= EvalRetries
    ensures |t.adj| == |env.index.ids| && IsTopK(t.adj, TopK, t.idx)
  {
    var q := Query(v);
    var e := EvalEmbedLoop(env.embed(q), env.dim, FirstTry, []);
    EvalEmbedOutcome(env.embed(q), env.dim, FirstTry, []);
    var sims := env.similarity(e.answer);
    assert Aligned(env.index, sims);
    var adj := Adjusted(sims, env.index.ids, v.unit);
    Retrieved(q, e.calls, e.pauses, adj, TopIndices(adj, TopK))
  }

  /** The ambiguous case: ask the LLM about the candidates, then apply the
      unit abstain. */
  function AskLlmStep(env: Services, file: string, v: Var, t: Retrieved): (r: Result<Step>)
    requires |t.adj| == |env.index.ids| == |env.index.texts| && InRange(t.idx, |t.adj|)
    ensures r.Ok? ==> r.value.row.file == file && r.value.row.originalName == v.name
    ensures r.Ok? ==> r.value.posts <= t.posts + EvalRetries && ConfidentMatchExplained(v.unit, r.value.row)
  {
    var tops := Candidates(env.index, t.adj, t.idx);
    var l := EvalReasonLoop(env.llm(t.query, tops), env.parse, OriginalOf(v.name), Exhausted, FirstTry, []);
    EvalReasonOutcome(env.llm(t.query, tops), env.parse, OriginalOf(v.name), Exhausted, FirstTry, []);
    match AfterLlm(file, v, l.answer)
    case Err(m) => Err(m)
    case Ok(row) => Ok(Step(row, t.posts + l.calls, t.pauses + l.pauses + [Pace]))
  }

  /** Everything `run_eval` does for one variable. A gated variable costs no
      request and no sleep; any other is embedded, with at most two POSTs to
      each service. Every confident match is explained. */
  function VarOutcome(env: Services, file: string, raw: RawVar): (r: Result<Step>)
    requires WellFormed(env)
    ensures IsOod(raw.name) ==> r == Ok(Step(EvalRow(file, raw.name, Some(""), 0.0, Said(OodReason)), 0, []))
    ensures !IsOod(raw.name) && r.Ok? ==> FirstTry <= r.value.posts <= 2 * EvalRetries
    ensures r.Ok? ==> r.value.row.file == file && r.value.row.originalName == raw.name
    ensures r.Ok? ==> ConfidentMatchExplained(Extract(raw).unit, r.value.row)
  {
    var v := Extract(raw);
    if IsOod(v.name) then Ok(Step(EvalRow(file, v.name, Some(""), 0.0, Said(OodReason)), 0, []))
    else
      var t := Retrieve(env, v);
      match Screen(file, v.name, env.index.ids, t.adj, t.idx)
      case Abstain(row) => Ok(Step(row, t.posts, t.pauses))
      case AutoPick(row) => Ok(Step(row, t.posts, t.pauses + [Pace]))
      case AskLlm => AskLlmStep(env, file, v, t)
  }

  /** The loop body of `run_eval` for the variables of `file`. */
  function VarStep(env: Services, file: string): (step: RawVar --> Result<Step>)
    ensures forall raw :: WellFormed(env) ==> step.requires(raw) && step(raw) == VarOutcome(env, file, raw)
  {
    raw requires WellFormed(env) => VarOutcome(env, file, raw)
  }

  /** `for v in vars_list` from the `k`-th variable of one file on. */
  function VarsLoop(env: Services, file: string, vars: seq<RawVar>, k: nat, p: Progress): (r: Result<Progress>)
    requires WellFormed(env) && k <= |vars|
  {
    StepAll(VarStep(env, file), vars, k, p)
  }

  /** Embedding, scoring, unit adjustment and ranking, as statements. */
  method RetrieveFor(env: Services, v: Var) returns (t: Retrieved)
    requires WellFormed(env)
    ensures t == Retrieve(env, v)
  {
    var query := Query(v);
    var vec, posts, sleeps := EmbedForEval(env.embed(query), env.dim);
    var sims := env.similarity(vec);
    assert Aligned(env.index, sims);
    var adj := AdjustScores(sims, env.index.ids, v.unit);
    t := Retrieved(query, posts, sleeps, adj, TopIndices(adj, TopK));
  }

  /** The LLM call and the unit abstain, as statements. */
  method AskLlmFor(env: Services, file: string, v: Var, t: Retrieved) returns (r: Result<Step>)
    requires |t.adj| == |env.index.ids| == |env.index.texts| && InRange(t.idx, |t.adj|)
    ensures r == AskLlmStep(env, file, v, t)
  {
    var tops := Candidates(env.index, t.adj, t.idx);
    var res, posts, sleeps := ReasonForEval(env.llm(t.query, tops), env.parse, v.name, Exhausted);
    var row := AfterLlm(file, v, res);
    if row.Err? {
      return Err(row.msg);
    }
    return Ok(Step(row.value, t.posts + posts, t.pauses + sleeps + [Pace]));
  }

  /** The per-variable branch of `run_eval`, written as the loop body. */
  method EvalVariable(env: Services, file: string, raw: RawVar) returns (r: Result<Step>)
    requires WellFormed(env)
    ensures r == VarOutcome(env, file, raw)
  {
    var v := Extract(raw);
    if IsOod(v.name) {
      return Ok(Step(EvalRow(file, v.name, Some(""), 0.0, Said(OodReason)), 0, []));
    }
    var t := RetrieveFor(env, v);
    var screened := Screen(file, v.name, env.index.ids, t.adj, t.idx);
    match screened {
      case Abstain(row) =>
        return Ok(Step(row, t.posts, t.pauses));
      case AutoPick(row) =>
        return Ok(Step(row, t.posts, t.pauses + [Pace]));
      case AskLlm =>
        r := AskLlmFor(env, file, v, t);
    }
  }

  /** The names of the variables, in order. */
  function Names(vars: seq<RawVar>): (names: seq<Option<string>>)
    ensures |names| == |vars| && forall j :: 0 <= j < |vars| ==> names[j] == vars[j].name
  {
    seq(|vars|, j requires 0 <= j < |vars| => vars[j].name)
  }

  /** The loop over one file's variables appends one row per variable, in
      order, each for that file and explained, and keeps the rows before. */
  lemma VarsLoopRows(env: Services, file: string, vars: seq<RawVar>, k: nat, p: Progress)
    requires WellFormed(env) && k <= |vars| && VarsLoop(env, file, vars, k, p).Ok?
    ensures var q := VarsLoop(env, file, vars, k, p).value;
      |q.rows| == |p.rows| + |vars| - k && q.rows[..|p.rows|] == p.rows
    ensures var q := VarsLoop(env, file, vars, k, p).value;
      forall i :: |p.rows| <= i < |q.rows| ==> q.rows[i].file == file && q.rows[i].originalName == vars[i - |p.rows| + k].name
    ensures var q := VarsLoop(env, file, vars, k, p).value;
      forall i :: |p.rows| <= i < |q.rows| ==> ConfidentMatchExplained(Extract(vars[i - |p.rows| + k]).unit, q.rows[i])
  {
    var fact := (raw: RawVar, row: EvalRow) =>
      row.file == file && row.originalName == raw.name && ConfidentMatchExplained(Extract(raw).unit, row);
    StepAllRows(VarStep(env, file), vars, k, p, fact);
  }

  /** Each variable costs at most four requests: two to each service. */
  lemma VarsLoopPosts(env: Services, file: string, vars: seq<RawVar>, k: nat, p: Progress)
    requires WellFormed(env) && k <= |vars| && VarsLoop(env, file, vars, k, p).Ok?
    ensures p.posts <= VarsLoop(env, file, vars, k, p).value.posts <= p.posts + 2 * EvalRetries * (|vars| - k)
  {
    StepAllPosts(VarStep(env, file), vars, k, p, 2 * EvalRetries);
  }

  /** A whole file run from no rows gives exactly the file's rows. */
  lemma FileRows(env: Services, file: string, vars: seq<RawVar>)
    requires WellFormed(env) && VarsLoop(env, file, vars, 0, Start).Ok?
    ensures RowsFor(VarsLoop(env, file, vars, 0, Start).value.rows, file, Names(vars))
  {
    VarsLoopRows(env, file, vars, 0, Start);
  }

  /** A variable the gate rejects costs no request and no sleep: a file of
      gated variables only leaves the request count and the sleeps alone. */
  lemma GatedVarsAreFree(env: Services, file: string, vars: seq<RawVar>, k: nat, p: Progress)
    requires WellFormed(env) && k <= |vars|
    requires forall j :: k <= j < |vars| ==> IsOod(vars[j].name)
    ensures VarsLoop(env, file, vars, k, p).Ok?
    ensures VarsLoop(env, file, vars, k, p).value.posts == p.posts
    ensures VarsLoop(env, file, vars, k, p).value.pauses == p.pauses
  {
    StepAllFree(VarStep(env, file), vars, k, p);
  }

  /** The loop stops early only on a variable whose handling raised. */
  lemma VarsLoopFailsOnlyOnError(env: Services, file: string, vars: seq<RawVar>, k: nat, p: Progress)
    requires WellFormed(env) && k <= |vars| && VarsLoop(env, file, vars, k, p).Err?
    ensures exists j :: k <= j < |vars| && VarOutcome(env, file, vars[j]).Err?
  {
    StepAllFailsOnlyOnError(VarStep(env, file), vars, k, p);
  }

  /** One Turtle file after parsing: its base name and the variables of its
      observable properties, in the order the graph yields them. */
  datatype TtlFile = TtlFile(base: string, vars: seq<RawVar>)

  /** `for ttl in files` from the `f`-th file on. */
  function FilesLoop(env: Services, files: seq<TtlFile>, f: nat, p: Progress): (r: Result<Progress>)
    requires WellFormed(env) && f <= |files|
    decreases |files| - f
  {
    if f == |files| then Ok(p)
    else
      match VarsLoop(env, files[f].base, files[f].vars, 0, p)
      case Err(m) => Err(m)
      case Ok(q) => FilesLoop(env, files, f + 1, q)
  }

  /** The number of variables of the files from the `f`-th on. */
  function VarCount(files: seq<TtlFile>, f: nat): nat
    requires f <= |files|
    decreases |files| - f
  {
    if f == |files| then 0 else |files[f].vars| + VarCount(files, f + 1)
  }

  /** A run that completes writes one row per variable of every file, after
      the rows it started with. */
  lemma {:induction false} FilesLoopRows(env: Services, files: seq<TtlFile>, f: nat, p: Progress)
    requires WellFormed(env) && f <= |files| && FilesLoop(env, files, f, p).Ok?
    ensures |FilesLoop(env, files, f, p).value.rows| == |p.rows| + VarCount(files, f)
    ensures FilesLoop(env, files, f, p).value.rows[..|p.rows|] == p.rows
    decreases |files| - f
  {
    if f < |files| {
      var q := VarsLoop(env, files[f].base, files[f].vars, 0, p).value;
      VarsLoopRows(env, files[f].base, files[f].vars, 0, p);
      FilesLoopRows(env, files, f + 1, q);
      var r := FilesLoop(env, files, f, p).value;
      assert r.rows[..|p.rows|] == r.rows[..|q.rows|][..|p.rows|];
    }
  }

  /** The body for a loop that knows it only as the value `step`. */
  method EvalStep(env: Services, file: string, raw: RawVar, step: RawVar --> Result<Step>) returns (r: Result<Step>)
    requires WellFormed(env)
    requires forall x :: step.requires(x)
    requires forall x {:trigger VarOutcome(env, file, x)} :: step(x) == VarOutcome(env, file, x)
    ensures r == step(raw)
  {
    r := EvalVariable(env, file, raw);
  }

  /** The variable loop of one file, as statements, for its loop body
      `step`. */
  method EvalFile(env: Services, file: TtlFile, p: Progress, step: RawVar --> Result<Step>) returns (r: Result<Progress>)
    requires WellFormed(env)
    requires forall x :: step.requires(x)
    requires forall x {:trigger VarOutcome(env, file.base, x)} :: step(x) == VarOutcome(env, file.base, x)
    ensures r == StepAll(step, file.vars, 0, p)
  {
    var q := p;
    var k := 0;
    while k < |file.vars|
      invariant 0 <= k <= |file.vars|
      invariant StepAll(step, file.vars, k, q) == StepAll(step, file.vars, 0, p)
    {
      var s := EvalStep(env, file.base, file.vars[k], step);
      StepAllNext(step, file.vars, k, q);
      if s.Err? {
        return Err(s.msg);
      }
      q := Then(q, s.value);
      k := k + 1;
    }
    return Ok(q);
  }

  /** `run_eval()` over the parsed files: the file loop, then the rows of
      `eval_results.csv`. An error stops the run before the file is written. */
  method RunEval(env: Services, files: seq<TtlFile>) returns (r: Result<Progress>)
    requires WellFormed(env)
    ensures r == FilesLoop(env, files, 0, Start)
  {
    var p := Start;
    var f := 0;
    while f < |files|
      invariant 0 <= f <= |files|
      invariant FilesLoop(env, files, f, p) == FilesLoop(env, files, 0, Start)
    {
      var q := EvalFile(env, files[f], p, VarStep(env, files[f].base));
      if q.Err? {
        return Err(q.msg);
      }
      p := q.value;
      f := f + 1;
    }
    return Ok(p);
  }
}
