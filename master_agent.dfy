/** `masteragent.py`, the first pipeline orchestrator: for every variable
    extracted from one OEM file it builds a descriptive query, retrieves the
    best `k` ontology entries, and asks the LLM once to choose among them. */
module MasterAgent {
  import opened Wrappers
  import opened Text
  import opened Clients
  import opened Retrieval
  import opened OnlineClients
  import opened TopMatches
  import opened QudtLabels
  import opened QueryText

  /** The `--k` default of `main`. */
  const DefaultK: int := 5

  // ---------------------------------------------------------------------------
  // reason_best_match
  // ---------------------------------------------------------------------------

  /** A 200 or error reply of the chat endpoint: its raw text (`r.text`) and
      the message content, when `r.json()["choices"][0]["message"]["content"]`
      reaches a text. */
  datatype ChatBody = ChatBody(text: string, content: Option<string>)

  /** How much of a raw reply an error reason quotes. */
  const QuoteLength: int := 200

  /** All four keys are present (possibly `null`). */
  predicate Complete(v: Verdict) {
    !v.original.Missing? && !v.bestMatch.Missing? && !v.confidence.Missing? && !v.reason.Missing?
  }

  /** The four `parsed.setdefault(...)` calls: an absent key gets the
      variable's name (`null` without one), "", 0.0 or "", and a key the
      LLM wrote, even as `null`, is kept. */
  function WithDefaults(p: Verdict, name: Option<string>): (v: Verdict)
    ensures Complete(v)
    ensures p.original.Missing? ==> v.original == OriginalOf(name)
    ensures p.bestMatch.Missing? ==> v.bestMatch == Value("")
    ensures p.confidence.Missing? ==> v.confidence == Value(0.0)
    ensures p.reason.Missing? ==> v.reason == Value("")
    ensures !p.original.Missing? ==> v.original == p.original
    ensures !p.bestMatch.Missing? ==> v.bestMatch == p.bestMatch
    ensures !p.confidence.Missing? ==> v.confidence == p.confidence
    ensures !p.reason.Missing? ==> v.reason == p.reason
  {
    Verdict(if p.original.Missing? then OriginalOf(name) else p.original,
            if p.bestMatch.Missing? then Value("") else p.bestMatch,
            if p.confidence.Missing? then Value(0.0) else p.confidence,
            if p.reason.Missing? then Value("") else p.reason)
  }

  /** `setdefault` never overwrites: a complete answer passes unchanged, so
      filling in the defaults twice is filling them in once. */
  lemma CompleteUnchanged(p: Verdict, name: Option<string>)
    requires Complete(p)
    ensures WithDefaults(p, name) == p
  {
  }

  lemma DefaultsIdempotent(p: Verdict, name: Option<string>, name': Option<string>)
    ensures WithDefaults(WithDefaults(p, name), name') == WithDefaults(p, name)
  {
    CompleteUnchanged(WithDefaults(p, name), name');
  }

  /** `reason_best_match(var_name, ...)` given the reply to its POST and
      `parse`, which stands for `json.loads` followed by reading the result
      as a dict (`Err` carries the exception text). The POST is outside the
      `try`, so a network error raises; a non-200 is declined with the status
      and the start of the raw text; a 200 is parsed from the brace slice of
      its stripped content and completed with the defaults, or declined with
      the parse error and the start of the content. A 200 without a content
      text fails inside the `try` before `content` is bound, so the `except`
      block itself raises. */
  function ReasonBestMatch(reply: Response<ChatBody>, parse: string -> Result<Verdict>, name: Option<string>): (r: Result<Verdict>)
    ensures r.Err? <==> reply.Raised? || (IsOk(reply) && reply.body.content.None?)
    ensures r.Ok? ==> Complete(r.value)
    ensures reply.Reply? && reply.status != 200 ==>
      r == Ok(Declined(OriginalOf(name), "LLM API error " + IntToString(reply.status) + ": " + PySlice(reply.body.text, 0, QuoteLength)))
    ensures IsOk(reply) && reply.body.content.Some? ==>
      var content := Strip(reply.body.content.value);
      var parsed := parse(JsonSlice(content));
      (parsed.Ok? ==> r == Ok(WithDefaults(parsed.value, name))) &&
      (parsed.Err? ==> r == Ok(Declined(OriginalOf(name), "Parse error: " + parsed.msg + ". Raw: " + PySlice(content, 0, QuoteLength))))
  {
    match reply
    case Raised => Err("RequestException")
    case Reply(status, body) =>
      if status != 200 then
        Ok(Declined(OriginalOf(name), "LLM API error " + IntToString(status) + ": " + PySlice(body.text, 0, QuoteLength)))
      else if body.content.None? then Err("UnboundLocalError")
      else
        var content := Strip(body.content.value);
        match parse(JsonSlice(content))
        case Ok(p) => Ok(WithDefaults(p, name))
        case Err(e) => Ok(Declined(OriginalOf(name), "Parse error: " + e + ". Raw: " + PySlice(content, 0, QuoteLength)))
  }

  /** A content without a closing brace is sliced to "", which `json.loads`
      rejects: the answer is declined, keeping the variable's name. */
  lemma NoBraceDeclines(reply: Response<ChatBody>, parse: string -> Result<Verdict>, name: Option<string>)
    requires IsOk(reply) && reply.body.content.Some? && '}' !in Strip(reply.body.content.value)
    requires parse("").Err?
    ensures var r := ReasonBestMatch(reply, parse, name);
      r.Ok? && r.value.original == OriginalOf(name) && r.value.bestMatch == Value("") && r.value.confidence == Value(0.0)
  {
    NoClosingBraceEmptySlice(Strip(reply.body.content.value));
  }

  // ---------------------------------------------------------------------------
  // run_pipeline
  // ---------------------------------------------------------------------------

  /** `[f(x) for x in xs]` for a loop body `f` that may raise: the results in
      order, or the exception of the first item that raises. Built from the
      end, as the loop appends. */
  function MapUntilErr<A(!new), B>(step: A --> Result<B>, xs: seq<A>): (r: Result<seq<B>>)
    requires forall x :: step.requires(x)
    ensures r.Ok? ==> |r.value| == |xs|
  {
    if xs == [] then Ok([])
    else
      match MapUntilErr(step, xs[..|xs| - 1])
      case Err(e) => Err(e)
      case Ok(bs) =>
        match step(xs[|xs| - 1])
        case Err(e) => Err(e)
        case Ok(b) => Ok(bs + [b])
  }

  /** Item `i` of a loop that finished is the body's result for item `i`. */
  lemma {:induction false} MapUntilErrAt<A(!new), B>(step: A --> Result<B>, xs: seq<A>, i: nat)
    requires forall x :: step.requires(x)
    requires MapUntilErr(step, xs).Ok? && i < |xs|
    ensures step(xs[i]) == Ok(MapUntilErr(step, xs).value[i])
  {
    if i < |xs| - 1 {
      MapUntilErrAt(step, xs[..|xs| - 1], i);
      assert xs[..|xs| - 1][i] == xs[i];
    }
  }

  /** The loop raises exactly when some item raises, and then with the
      exception of the first such item. */
  lemma {:induction false} MapUntilErrFails<A(!new), B>(step: A --> Result<B>, xs: seq<A>)
    requires forall x :: step.requires(x)
    ensures MapUntilErr(step, xs).Err? <==> exists i :: 0 <= i < |xs| && step(xs[i]).Err?
    ensures MapUntilErr(step, xs).Err? ==>
      exists i :: 0 <= i < |xs| && step(xs[i]) == Err(MapUntilErr(step, xs).msg) && forall j :: 0 <= j < i ==> step(xs[j]).Ok?
  {
    if xs != [] {
      var init := xs[..|xs| - 1];
      MapUntilErrFails(step, init);
      assert forall i :: 0 <= i < |init| ==> init[i] == xs[i];
      if MapUntilErr(step, init).Ok? {
        assert forall i :: 0 <= i < |init| ==> step(xs[i]).Ok?;
      }
    }
  }

  /** Once a prefix has raised, so has the whole loop, with that exception. */
  lemma {:induction false} MapUntilErrPrefix<A(!new), B>(step: A --> Result<B>, xs: seq<A>, n: nat)
    requires forall x :: step.requires(x)
    requires n <= |xs| && MapUntilErr(step, xs[..n]).Err?
    ensures MapUntilErr(step, xs) == MapUntilErr(step, xs[..n])
    decreases |xs| - n
  {
    if n < |xs| {
      assert xs[..|xs| - 1][..n] == xs[..n];
      MapUntilErrPrefix(step, xs[..|xs| - 1], n);
    } else {
      assert xs[..n] == xs;
    }
  }

  /** The outside world of `run_pipeline`: the ontology store, the chat
      endpoint's reply to the prompt built from a variable's name, query and
      candidates, and `parse`, which reads the sliced content. */
  datatype Services = Services(
    store: Store,
    llm: (Option<string>, string, seq<Candidate>) -> Response<ChatBody>,
    parse: string -> Result<Verdict>)

  /** The number of indices `[:top_k]` keeps of `n`: `top_k` of them (all
      when there are fewer), or, for a negative `top_k`, all but the last
      `-top_k`. */
  function TopCount(k: int, n: nat): (c: nat)
    ensures 0 <= k ==> c == MinNat(k, n)
    ensures k < 0 ==> c == n - Min(-k, n)
  {
    SliceBound(n, k)
  }

  /** One entry of `all_tops`. */
  datatype TopEntry = TopEntry(original: Option<string>, query: string, matches: seq<Candidate>)

  /** The retrieval loop body for one variable. Printing
      `top_matches[0]` raises `IndexError` when no candidate is kept. */
  function TopEntryFor(s: Services, k: int, v: OemVar): Result<TopEntry>
    requires WellFormed(s.store)
  {
    var q := BuildQueryText(v);
    var l := Retrieve(s.store, q, TopCount(k, |s.store.index.ids|));
    if |l.matches| == 0 then Err("IndexError") else Ok(TopEntry(v.name, q, l.matches))
  }

  /** The entry of a variable carries its name and query and the `top_k`
      best candidates, best first, each one an entry of the index; the body
      raises exactly when `[:top_k]` keeps nothing. */
  lemma TopEntryFacts(s: Services, k: int, v: OemVar)
    requires WellFormed(s.store)
    ensures TopEntryFor(s, k, v).Err? <==> TopCount(k, |s.store.index.ids|) == 0
    ensures var e := TopEntryFor(s, k, v);
      e.Ok? ==>
        && e.value.original == v.name && e.value.query == BuildQueryText(v)
        && |e.value.matches| == TopCount(k, |s.store.index.ids|)
        && (forall i, j :: 0 <= i < j < |e.value.matches| ==> e.value.matches[i].sim >= e.value.matches[j].sim)
        && (forall j :: 0 <= j < |e.value.matches| ==> IsEntry(s.store.index, e.value.matches[j]))
  {
    var l := Retrieve(s.store, BuildQueryText(v), TopCount(k, |s.store.index.ids|));
    assert MinNat(TopCount(k, |s.store.index.ids|), |s.store.index.ids|) == TopCount(k, |s.store.index.ids|);
    forall j | 0 <= j < |l.matches|
      ensures IsEntry(s.store.index, l.matches[j])
    {
      var e := l.idx[j];
      assert e < |l.sims|;
      assert l.matches[j].id == s.store.index.ids[e] && l.matches[j].text == s.store.index.texts[e];
    }
  }

  /** The retrieval loop body, as a value. */
  function TopStep(s: Services, k: int): (step: OemVar --> Result<TopEntry>)
    ensures forall v :: WellFormed(s.store) ==> step.requires(v)
    ensures forall v {:trigger TopEntryFor(s, k, v)} :: WellFormed(s.store) ==> step(v) == TopEntryFor(s, k, v)
  {
    v requires WellFormed(s.store) => TopEntryFor(s, k, v)
  }

  /** The reasoning loop body for one entry. Printing `res['confidence']`
      with `:.2f` raises `TypeError` for a `null` confidence. */
  function MappingFor(s: Services, e: TopEntry): (r: Result<Verdict>)
    ensures r.Ok? ==> Complete(r.value) && r.value.confidence.Value?
    ensures r.Ok? <==>
      && ReasonBestMatch(s.llm(e.original, e.query, e.matches), s.parse, e.original).Ok?
      && ReasonBestMatch(s.llm(e.original, e.query, e.matches), s.parse, e.original).value.confidence.Value?
    ensures r.Ok? ==> r == ReasonBestMatch(s.llm(e.original, e.query, e.matches), s.parse, e.original)
  {
    var res := ReasonBestMatch(s.llm(e.original, e.query, e.matches), s.parse, e.original);
    if res.Ok? && res.value.confidence.Null? then Err("TypeError") else res
  }

  /** The reasoning loop body, as a value. */
  function MappingStep(s: Services): (step: TopEntry -> Result<Verdict>)
    ensures forall e {:trigger MappingFor(s, e)} :: step(e) == MappingFor(s, e)
  {
    e => MappingFor(s, e)
  }

  /** What `run_pipeline` writes: the top matches file when the retrieval
      loop finishes, the mappings file and its CSV summary when the
      reasoning loop does too. */
  datatype PipelineRun = PipelineRun(tops: Result<seq<TopEntry>>, mappings: Result<seq<Verdict>>)

  /** `run_pipeline` on the extracted variables. */
  function Pipeline(s: Services, k: int, vars: seq<OemVar>): (p: PipelineRun)
    requires WellFormed(s.store)
  {
    var tops := MapUntilErr(TopStep(s, k), vars);
    if tops.Err? then PipelineRun(tops, Err(tops.msg))
    else PipelineRun(tops, MapUntilErr(MappingStep(s), tops.value))
  }

  /** The retrieval loop raises, before anything is written but the
      variables file, exactly when there is a variable and `[:top_k]` keeps
      no candidate: `top_k` is 0 or cuts off the whole index, or the index
      is empty. */
  lemma RetrievalRaisesOnlyWithoutCandidates(s: Services, k: int, vars: seq<OemVar>)
    requires WellFormed(s.store)
    ensures Pipeline(s, k, vars).tops.Err? <==> |vars| > 0 && TopCount(k, |s.store.index.ids|) == 0
  {
    var step := TopStep(s, k);
    MapUntilErrFails(step, vars);
    if |vars| > 0 {
      TopEntryFacts(s, k, vars[0]);
    }
    if MapUntilErr(step, vars).Err? {
      var i :| 0 <= i < |vars| && step(vars[i]).Err?;
      TopEntryFacts(s, k, vars[i]);
    }
  }

  /** Entry `i` of the top matches file belongs to variable `i`: its name,
      its query and its `top_k` best candidates. */
  lemma TopsInOrder(s: Services, k: int, vars: seq<OemVar>, i: nat)
    requires WellFormed(s.store)
    requires Pipeline(s, k, vars).tops.Ok? && i < |vars|
    ensures |Pipeline(s, k, vars).tops.value| == |vars|
    ensures var e := Pipeline(s, k, vars).tops.value[i];
      e.original == vars[i].name && e.query == BuildQueryText(vars[i]) && |e.matches| == TopCount(k, |s.store.index.ids|)
  {
    MapUntilErrAt(TopStep(s, k), vars, i);
    TopEntryFacts(s, k, vars[i]);
  }

  /** When the pipeline gets through, mapping `i` is the completed answer of
      the LLM for variable `i`, with a number for its confidence. */
  lemma MappingsInOrder(s: Services, k: int, vars: seq<OemVar>, i: nat)
    requires WellFormed(s.store)
    requires Pipeline(s, k, vars).mappings.Ok? && i < |vars|
    ensures var p := Pipeline(s, k, vars);
      && p.tops.Ok? && |p.tops.value| == |p.mappings.value| == |vars|
      && var e := p.tops.value[i];
      && var m := p.mappings.value[i];
      && Complete(m) && m.confidence.Value?
      && Ok(m) == ReasonBestMatch(s.llm(vars[i].name, BuildQueryText(vars[i]), e.matches), s.parse, vars[i].name)
  {
    var p := Pipeline(s, k, vars);
    TopsInOrder(s, k, vars, i);
    MapUntilErrAt(MappingStep(s), p.tops.value, i);
  }

  /** The row `w.writerow` writes for a mapping: `m.get(key, default)` for
      the four columns. */
  function CsvRow(m: Verdict): (row: Verdict)
    ensures Complete(row)
    ensures m.original.Missing? ==> row.original == Value("")
    ensures Complete(m) ==> row == m
  {
    Verdict(if m.original.Missing? then Value("") else m.original,
            if m.bestMatch.Missing? then Value("") else m.bestMatch,
            if m.confidence.Missing? then Value(0.0) else m.confidence,
            if m.reason.Missing? then Value("") else m.reason)
  }

  /** Every mapping has all four keys, so the CSV summary holds the mappings
      exactly and its defaults are never used. */
  lemma CsvMatchesMappings(s: Services, k: int, vars: seq<OemVar>, i: nat)
    requires WellFormed(s.store)
    requires Pipeline(s, k, vars).mappings.Ok? && i < |vars|
    ensures CsvRow(Pipeline(s, k, vars).mappings.value[i]) == Pipeline(s, k, vars).mappings.value[i]
  {
    MappingsInOrder(s, k, vars, i);
  }

  /** One iteration of the retrieval loop. */
  method TopEntryStep(s: Services, k: int, v: OemVar, step: OemVar --> Result<TopEntry>) returns (e: Result<TopEntry>)
    requires WellFormed(s.store)
    requires forall x :: step.requires(x)
    requires forall x {:trigger TopEntryFor(s, k, x)} :: step(x) == TopEntryFor(s, k, x)
    ensures e == step(v)
  {
    var qtext := BuildQueryText(v);
    var l := RetrieveFor(s.store, qtext, TopCount(k, |s.store.index.ids|));
    if |l.matches| == 0 {
      e := Err("IndexError");
    } else {
      e := Ok(TopEntry(v.name, qtext, l.matches));
    }
    assert e == TopEntryFor(s, k, v);
  }

  /** The retrieval loop of `run_pipeline`, for its loop body `step`. */
  method RetrieveLoop(s: Services, k: int, vars: seq<OemVar>, step: OemVar --> Result<TopEntry>) returns (tops: Result<seq<TopEntry>>)
    requires WellFormed(s.store)
    requires forall x :: step.requires(x)
    requires forall x {:trigger TopEntryFor(s, k, x)} :: step(x) == TopEntryFor(s, k, x)
    ensures tops == MapUntilErr(step, vars)
  {
    var all: seq<TopEntry> := [];
    for n := 0 to |vars|
      invariant MapUntilErr(step, vars[..n]) == Ok(all)
    {
      var e := TopEntryStep(s, k, vars[n], step);
      assert vars[..n + 1][..n] == vars[..n];
      if e.Err? {
        MapUntilErrPrefix(step, vars, n + 1);
        return Err(e.msg);
      }
      all := all + [e.value];
    }
    assert vars[..|vars|] == vars;
    tops := Ok(all);
  }

  /** The reasoning loop of `run_pipeline`. */
  method MappingLoop(s: Services, tops: seq<TopEntry>) returns (mappings: Result<seq<Verdict>>)
    ensures mappings == MapUntilErr(MappingStep(s), tops)
  {
    var step := MappingStep(s);
    var all: seq<Verdict> := [];
    for n := 0 to |tops|
      invariant MapUntilErr(step, tops[..n]) == Ok(all)
    {
      var item := tops[n];
      var res := ReasonBestMatch(s.llm(item.original, item.query, item.matches), s.parse, item.original);
      assert tops[..n + 1][..n] == tops[..n];
      if res.Err? {
        MapUntilErrPrefix(step, tops, n + 1);
        return Err(res.msg);
      }
      if res.value.confidence.Null? {
        MapUntilErrPrefix(step, tops, n + 1);
        return Err("TypeError");
      }
      all := all + [res.value];
    }
    assert tops[..|tops|] == tops;
    mappings := Ok(all);
  }

  /** `run_pipeline(ttl_path, top_k)` after the extraction. */
  method RunPipeline(s: Services, k: int, vars: seq<OemVar>) returns (p: PipelineRun)
    requires WellFormed(s.store)
    ensures p == Pipeline(s, k, vars)
  {
    var tops := RetrieveLoop(s, k, vars, TopStep(s, k));
    if tops.Err? {
      return PipelineRun(tops, Err(tops.msg));
    }
    var mappings := MappingLoop(s, tops.value);
    p := PipelineRun(tops, mappings);
  }
}
