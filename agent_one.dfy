/** `AGENT1.py`, the retriever: for every OEM variable read from the
    variables file, build a one-line query, embed it and keep the five best
    ontology entries. */
module AgentOne {
  import opened Wrappers
  import opened Text
  import opened Clients
  import opened Retrieval
  import opened TopMatches

  /** `TOP_K`. */
  const TopK: nat := 5

  /** One variable as the variables file holds it: each key may be absent,
      `null`, or hold a value (`value` holds the text `str()` gives for it). */
  datatype Record = Record(name: Field<string>, unit: Field<string>, context: Field<string>, dataType: Field<string>, value: Field<string>)

  /** `f"{v.get(key, '')}"`: an absent key prints as the empty text, a
      `null` as `None`. */
  function Shown(f: Field<string>): (s: string)
    ensures f.Missing? ==> s == ""
    ensures f.Null? ==> s == "None"
    ensures f.Value? ==> s == f.v
  {
    match f
    case Missing => ""
    case Null => "None"
    case Value(t) => t
  }

  /** The `query_text` f-string. */
  function QueryText(v: Record): (q: string)
    ensures StartsWith(q, "Variable: " + Shown(v.name) + ". Unit: " + Shown(v.unit) + ". ")
    ensures EndsWith(q, ". Value: " + Shown(v.value) + ".")
  {
    var head := "Variable: " + Shown(v.name) + ". Unit: " + Shown(v.unit) + ". ";
    var tail := ". Value: " + Shown(v.value) + ".";
    var q := head + "Context: " + Shown(v.context) + ". Datatype: " + Shown(v.dataType) + tail;
    assert q[..|head|] == head;
    assert q[|q| - |tail|..] == tail;
    q
  }

  /** `original_variable`: the name, "" when the key is absent, `None` when
      it is `null`. */
  function OriginalVariable(f: Field<string>): (o: Option<string>)
    ensures o.None? <==> f.Null?
    ensures o.Some? ==> o.value == Shown(f)
  {
    match f
    case Missing => Some("")
    case Null => None
    case Value(t) => Some(t)
  }

  /** One entry of the output file. */
  datatype Match = Match(original: Option<string>, query: string, matches: seq<Candidate>)

  /** What the loop body of `main` appends for one variable. */
  function MatchFor(store: Store, v: Record): (m: Match)
    requires WellFormed(store)
  {
    var q := QueryText(v);
    Match(OriginalVariable(v.name), q, Retrieve(store, q, TopK).matches)
  }

  /** The entry of a variable carries its name and query, and at most five
      candidates, best first, each pairing an id with the text stored beside
      it in the index. */
  lemma MatchForFacts(store: Store, v: Record)
    requires WellFormed(store)
    ensures var m := MatchFor(store, v);
      && m.original == OriginalVariable(v.name) && m.query == QueryText(v)
      && |m.matches| == MinNat(TopK, |store.index.ids|) <= TopK
      && (forall i, j :: 0 <= i < j < |m.matches| ==> m.matches[i].sim >= m.matches[j].sim)
      && (forall j :: 0 <= j < |m.matches| ==> IsEntry(store.index, m.matches[j]))
  {
    var l := Retrieve(store, QueryText(v), TopK);
    forall j | 0 <= j < |l.matches|
      ensures IsEntry(store.index, l.matches[j])
    {
      assert l.matches[j].id == store.index.ids[l.idx[j]];
    }
  }

  /** The loop body of `main`, as a value. */
  function MatchStep(store: Store): (step: Record --> Match)
    ensures forall v :: WellFormed(store) ==> step.requires(v)
    ensures forall v {:trigger MatchFor(store, v)} :: WellFormed(store) ==> step(v) == MatchFor(store, v)
  {
    v requires WellFormed(store) => MatchFor(store, v)
  }

  /** `[step(v) for v in variables]`, built from the end as the loop does. */
  function MapAll(step: Record --> Match, variables: seq<Record>): (ms: seq<Match>)
    requires forall v :: step.requires(v)
    ensures |ms| == |variables|
  {
    if variables == [] then []
    else MapAll(step, variables[..|variables| - 1]) + [step(variables[|variables| - 1])]
  }

  /** The entries `main` writes: entry `i` is the one of variable `i`. */
  lemma {:induction false} RetrieverInOrder(store: Store, variables: seq<Record>, i: nat)
    requires WellFormed(store) && i < |variables|
    ensures MapAll(MatchStep(store), variables)[i] == MatchFor(store, variables[i])
  {
    if i < |variables| - 1 {
      RetrieverInOrder(store, variables[..|variables| - 1], i);
    }
  }

  /** One iteration of `for v in variables`. */
  method MatchVariable(store: Store, v: Record, step: Record --> Match) returns (m: Match)
    requires WellFormed(store)
    requires forall x :: step.requires(x)
    requires forall x {:trigger MatchFor(store, x)} :: step(x) == MatchFor(store, x)
    ensures m == step(v)
  {
    var query := QueryText(v);
    var l := RetrieveFor(store, query, TopK);
    m := Match(OriginalVariable(v.name), query, l.matches);
    assert m == MatchFor(store, v);
  }

  /** The loop of `main`, for its loop body `step`. */
  method MatchLoop(store: Store, variables: seq<Record>, step: Record --> Match) returns (results: seq<Match>)
    requires WellFormed(store)
    requires forall x :: step.requires(x)
    requires forall x {:trigger MatchFor(store, x)} :: step(x) == MatchFor(store, x)
    ensures results == MapAll(step, variables)
  {
    results := [];
    for n := 0 to |variables|
      invariant results == MapAll(step, variables[..n])
    {
      var m := MatchVariable(store, variables[n], step);
      assert variables[..n + 1][..n] == variables[..n];
      results := results + [m];
    }
    assert variables[..|variables|] == variables;
  }

  /** `main()`: exactly one entry per variable, in the order of the file. */
  method RunRetriever(store: Store, variables: seq<Record>) returns (results: seq<Match>)
    requires WellFormed(store)
    ensures results == MapAll(MatchStep(store), variables)
  {
    results := MatchLoop(store, variables, MatchStep(store));
  }
}
