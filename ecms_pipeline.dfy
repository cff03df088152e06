/** The stateful side of the ECMS matching pipeline
    (`TESTFILES/ECMSPIPELINE/masteragent_ecms.py`): the request throttle and
    its global call counter, the embedding client with its text-keyed cache,
    the LLM client, the stable de-duplication of extracted names, the split
    against the skip list, and the per-file run that appends result and audit
    rows.

    The two services are scripts: the answer to a request is a function of
    what is sent and of the number the throttle gives the request. */
module EcmsPipeline {
  import opened Wrappers
  import opened Text
  import opened Clients
  import opened Retrieval
  import opened EcmsRouting

  const MaxRetries: nat := 2
  const BackoffBase: nat := 8
  /** `range(MAX_RETRIES + 5)`: attempts of each client. */
  const Attempts: nat := MaxRetries + 5
  const ThrottleEveryN: nat := 1
  /** The first value of the loop variable `attempt`. Contracts name the
      loops' start through this constant rather than through the literal 0,
      which would let the verifier unfold every attempt at once. */
  const FirstAttempt: nat := 0

  /** The throttle pause made after the request numbered `calls`. */
  function ThrottleAfter(calls: nat): (p: seq<Pause>)
    ensures |p| <= 1
  {
    if calls % ThrottleEveryN == 0 then [ThrottlePause] else []
  }

  /** `min(60, BACKOFF * 2 ** attempt)`: the wait after a 429 or a network error. */
  function RateLimitWait(attempt: nat): (w: nat)
    ensures BackoffBase <= w <= 60
  {
    Min(60, BackoffBase * Pow2(attempt))
  }

  /** `min(30, BACKOFF * (attempt + 1))`: the wait after any other failed status. */
  function OtherWait(attempt: nat): (w: nat)
    ensures BackoffBase <= w <= 30
  {
    Min(30, BackoffBase * (attempt + 1))
  }

  lemma Pow2AtLeast(n: nat)
    requires n >= 3
    ensures Pow2(n) >= 8
  {
    if n > 3 { Pow2AtLeast(n - 1); }
  }

  // ---------------------------------------------------------------------------
  // embed_text
  // ---------------------------------------------------------------------------

  /** How the embedding loop ends: a vector from a 200, retries used up, or a 403. */
  datatype Embedding = Fetched(vec: seq<real>) | Exhausted | Forbidden

  /** The backoff after a failed embedding attempt: exponential for a 429 or
      a network error, linear for any other status. */
  function EmbedWait<T>(reply: Response<T>, attempt: nat): (w: nat)
    ensures BackoffBase <= w <= 60
    ensures reply.Raised? || reply.status == 429 ==> w == RateLimitWait(attempt)
    ensures reply.Reply? && reply.status != 429 ==> w == OtherWait(attempt)
  {
    if reply.Raised? || reply.status == 429 then RateLimitWait(attempt) else OtherWait(attempt)
  }

  /** The embedding retry loop from `attempt` on, when `calls` requests were
      numbered and the pauses `log` were made before. Each attempt throttles
      (taking the next request number) and then posts; the run ends with the
      counter and the whole pause log. */
  function EmbedLoop(server: (string, nat) -> Response<seq<real>>, key: string, attempt: nat, calls: nat, log: seq<Pause>): Run<Embedding>
    requires attempt <= Attempts
    decreases Attempts - attempt
  {
    if attempt == Attempts then Run(Exhausted, calls, log)
    else
      var c := calls + 1;
      var sent := log + ThrottleAfter(c);
      var reply := server(key, c);
      match EmbedAnswer(reply)
      case Some(e) => Run(e, c, sent)
      case None => EmbedLoop(server, key, attempt + 1, c, sent + [Backoff(EmbedWait(reply, attempt))])
  }

  /** What one answer of the embedding service decides: None to back off and
      retry, or how the loop ends. */
  function EmbedAnswer(reply: Response<seq<real>>): (a: Option<Embedding>)
    ensures a.None? <==> !(reply.Reply? && reply.status in {200, 403})
    ensures a.Some? ==> (a.value.Fetched? <==> reply.status == 200) && !a.value.Exhausted?
  {
    if reply.Reply? && reply.status == 200 then Some(Fetched(reply.body))
    else if reply.Reply? && reply.status == 403 then Some(Forbidden)
    else None
  }

  /** At most one request per remaining attempt, and all of them when the
      retries run out; a vector comes from a 200 answer to the last request
      and a refusal from a 403 answer to it; earlier pauses are kept. */
  lemma {:induction false} EmbedLoopOutcome(server: (string, nat) -> Response<seq<real>>, key: string, attempt: nat, calls: nat, log: seq<Pause>)
    requires attempt <= Attempts
    ensures calls <= EmbedLoop(server, key, attempt, calls, log).calls <= calls + (Attempts - attempt)
    ensures EmbedLoop(server, key, attempt, calls, log).answer.Exhausted? ==>
      EmbedLoop(server, key, attempt, calls, log).calls == calls + (Attempts - attempt)
    ensures EmbedLoop(server, key, attempt, calls, log).answer.Fetched? ==>
      var r := EmbedLoop(server, key, attempt, calls, log);
      r.calls > calls && server(key, r.calls) == Reply(200, r.answer.vec)
    ensures EmbedLoop(server, key, attempt, calls, log).answer.Forbidden? ==>
      var r := EmbedLoop(server, key, attempt, calls, log);
      r.calls > calls && server(key, r.calls).Reply? && server(key, r.calls).status == 403
    ensures |log| <= |EmbedLoop(server, key, attempt, calls, log).pauses|
    ensures EmbedLoop(server, key, attempt, calls, log).pauses[..|log|] == log
    decreases Attempts - attempt
  {
    if attempt < Attempts {
      var c := calls + 1;
      var sent := log + ThrottleAfter(c);
      var reply := server(key, c);
      if !(reply.Reply? && (reply.status == 200 || reply.status == 403)) {
        var next := sent + [Backoff(EmbedWait(reply, attempt))];
        EmbedLoopOutcome(server, key, attempt + 1, c, next);
        assert next[..|log|] == log;
        assert EmbedLoop(server, key, attempt + 1, c, next).pauses[..|log|] == EmbedLoop(server, key, attempt + 1, c, next).pauses[..|next|][..|log|];
      } else {
        assert sent[..|log|] == log;
      }
    }
  }

  /** What `embed_text` hands back for the end of its loop: the vector, the
      zero vector once retries run out, or the `RuntimeError` of a 403. */
  function EmbedResult(e: Embedding, dim: nat): (r: Result<seq<real>>)
    ensures r.Err? <==> e.Forbidden?
    ensures e.Exhausted? ==> r == Ok(Zeros(dim))
    ensures e.Fetched? ==> r == Ok(e.vec)
  {
    match e
    case Fetched(v) => Ok(v)
    case Exhausted => Ok(Zeros(dim))
    case Forbidden => Err("RuntimeError")
  }

  /** A pause the clients make: the throttle, or a backoff of at most a minute. */
  predicate BoundedPause(p: Pause) {
    p == ThrottlePause || (p.Backoff? && p.seconds <= 60)
  }

  /** Every pause the embedding loop adds is the throttle or a backoff of at
      most a minute. */
  lemma {:induction false} EmbedPausesBounded(server: (string, nat) -> Response<seq<real>>, key: string, attempt: nat, calls: nat, log: seq<Pause>)
    requires attempt <= Attempts
    ensures forall i :: |log| <= i < |EmbedLoop(server, key, attempt, calls, log).pauses| ==>
      BoundedPause(EmbedLoop(server, key, attempt, calls, log).pauses[i])
    decreases Attempts - attempt
  {
    if attempt < Attempts {
      var c := calls + 1;
      var sent := log + ThrottleAfter(c);
      var reply := server(key, c);
      if !(reply.Reply? && (reply.status == 200 || reply.status == 403)) {
        var next := sent + [Backoff(EmbedWait(reply, attempt))];
        EmbedPausesBounded(server, key, attempt + 1, c, next);
        var ps := EmbedLoop(server, key, attempt + 1, c, next).pauses;
        EmbedLoopOutcome(server, key, attempt + 1, c, next);
        forall i | |log| <= i < |ps|
          ensures BoundedPause(ps[i])
        {
          if i < |next| {
            assert ps[i] == ps[..|next|][i] == next[i];
          }
        }
      }
    }
  }

  /** The pauses of a loop that only ever sees 429 (or network errors) from `attempt` on. */
  function RateLimitedSchedule(attempt: nat): seq<Pause>
    requires attempt <= Attempts
    decreases Attempts - attempt
  {
    if attempt == Attempts then []
    else [ThrottlePause, Backoff(RateLimitWait(attempt))] + RateLimitedSchedule(attempt + 1)
  }

  /** A server that answers only 429 makes the loop use all its attempts and
      return the zero vector; the backoffs are 8, 16, 32 and then 60 seconds. */
  lemma {:induction false} EmbedAllRateLimited(server: (string, nat) -> Response<seq<real>>, key: string, attempt: nat, calls: nat, log: seq<Pause>)
    requires attempt <= Attempts
    requires forall n :: calls < n ==> server(key, n).Reply? && server(key, n).status == 429
    ensures EmbedLoop(server, key, attempt, calls, log) == Run(Exhausted, calls + (Attempts - attempt), log + RateLimitedSchedule(attempt))
    decreases Attempts - attempt
  {
    if attempt < Attempts {
      var step := [ThrottlePause, Backoff(RateLimitWait(attempt))];
      RateLimitedStep(server, key, attempt, calls, log);
      EmbedAllRateLimited(server, key, attempt + 1, calls + 1, log + step);
      AppendAssoc(log, step, RateLimitedSchedule(attempt + 1));
    }
  }

  /** One attempt that meets a 429: a throttle pause and the exponential backoff. */
  lemma RateLimitedStep(server: (string, nat) -> Response<seq<real>>, key: string, attempt: nat, calls: nat, log: seq<Pause>)
    requires attempt < Attempts
    requires server(key, calls + 1).Reply? && server(key, calls + 1).status == 429
    ensures EmbedLoop(server, key, attempt, calls, log) ==
      EmbedLoop(server, key, attempt + 1, calls + 1, log + [ThrottlePause, Backoff(RateLimitWait(attempt))])
  {
    var reply := server(key, calls + 1);
    assert ThrottleAfter(calls + 1) == [ThrottlePause];
    Regroup(log, ThrottlePause, Backoff(EmbedWait(reply, attempt)));
  }

  lemma Regroup<T>(log: seq<T>, a: T, b: T)
    ensures log + [a] + [b] == log + [a, b]
  {
  }

  lemma AppendAssoc<T>(a: seq<T>, b: seq<T>, c: seq<T>)
    ensures a + b + c == a + (b + c)
  {
  }

  lemma RateLimitedScheduleValues()
    ensures RateLimitedSchedule(0) == [ThrottlePause, Backoff(8), ThrottlePause, Backoff(16), ThrottlePause, Backoff(32),
      ThrottlePause, Backoff(60), ThrottlePause, Backoff(60), ThrottlePause, Backoff(60), ThrottlePause, Backoff(60)]
  {
    assert RateLimitWait(0) == 8 && RateLimitWait(1) == 16 && RateLimitWait(2) == 32;
    Pow2AtLeast(3);
    Pow2AtLeast(4);
    Pow2AtLeast(5);
    Pow2AtLeast(6);
  }

  // ---------------------------------------------------------------------------
  // reason_llm
  // ---------------------------------------------------------------------------

  const ParseErrorVerdict: Verdict := Fallback("", 0.0, "LLM parse error")
  const ExhaustedVerdict: Verdict := Fallback("", 0.0, "LLM request failed (timeout/retries exhausted)")

  /** `json.loads(content[start:end])`, or the parse-error verdict if it raises
      (`parse` answers None for text `json.loads` rejects). */
  function ParseReply(parse: string -> Option<Verdict>, content: string): (v: Verdict)
    ensures parse(JsonSlice(content)).None? ==> v == ParseErrorVerdict
    ensures parse(JsonSlice(content)).Some? ==> v == parse(JsonSlice(content)).value
  {
    parse(JsonSlice(content)).GetOr(ParseErrorVerdict)
  }

  /** A reply with no closing brace slices to "", which `json.loads` rejects,
      so it yields the parse-error verdict. */
  lemma NoBraceIsParseError(parse: string -> Option<Verdict>, content: string)
    requires parse("") == None && '}' !in content
    ensures ParseReply(parse, content) == ParseErrorVerdict
  {
    NoClosingBraceEmptySlice(content);
  }

  /** The LLM retry loop from `attempt` on, with `calls` requests numbered and
      the pauses `log` made before. A 200 ends it with the parsed reply, a
      status other than 403 and 429 ends it with "LLM API <code>", a 403
      raises; 429 and network errors back off and retry. */
  function LlmLoop(server: (string, seq<Candidate>, nat) -> Response<string>, parse: string -> Option<Verdict>,
                   query: string, cands: seq<Candidate>, attempt: nat, calls: nat, log: seq<Pause>): Run<Result<Verdict>>
    requires attempt <= Attempts
    decreases Attempts - attempt
  {
    if attempt == Attempts then Run(Ok(ExhaustedVerdict), calls, log)
    else
      var c := calls + 1;
      var sent := log + ThrottleAfter(c);
      var reply := server(query, cands, c);
      match LlmAnswer(parse, reply)
      case Some(answer) => Run(answer, c, sent)
      case None => LlmLoop(server, parse, query, cands, attempt + 1, c, sent + [Backoff(RateLimitWait(attempt))])
  }

  /** What one answer of the chat service decides: None to back off and
      retry, or the outcome of the call. */
  function LlmAnswer(parse: string -> Option<Verdict>, reply: Response<string>): (a: Option<Result<Verdict>>)
    ensures a.None? <==> reply.Raised? || reply.status == 429
    ensures a.Some? && a.value.Err? <==> reply.Reply? && reply.status == 403
  {
    if reply.Raised? || reply.status == 429 then None
    else if reply.status == 200 then Some(Ok(ParseReply(parse, reply.body)))
    else if reply.status == 403 then Some(Err("RuntimeError"))
    else Some(Ok(Fallback("", 0.0, "LLM API " + IntToString(reply.status))))
  }

  /** At most one request per remaining attempt, and an error only from a
      403 answer to the last request. */
  lemma {:induction false} LlmLoopOutcome(server: (string, seq<Candidate>, nat) -> Response<string>, parse: string -> Option<Verdict>,
                                         query: string, cands: seq<Candidate>, attempt: nat, calls: nat, log: seq<Pause>)
    requires attempt <= Attempts
    ensures calls <= LlmLoop(server, parse, query, cands, attempt, calls, log).calls <= calls + (Attempts - attempt)
    ensures LlmLoop(server, parse, query, cands, attempt, calls, log).answer.Err? ==>
      var r := LlmLoop(server, parse, query, cands, attempt, calls, log);
      r.calls > calls && server(query, cands, r.calls).Reply? && server(query, cands, r.calls).status == 403
    decreases Attempts - attempt
  {
    if attempt < Attempts {
      var c := calls + 1;
      var reply := server(query, cands, c);
      if reply.Raised? || reply.status == 429 {
        LlmLoopOutcome(server, parse, query, cands, attempt + 1, c, log + ThrottleAfter(c) + [Backoff(RateLimitWait(attempt))]);
      }
    }
  }

  /** Only 429s and network errors: all attempts are spent and the verdict is
      the empty "retries exhausted" one. */
  lemma {:induction false} LlmAllRetried(server: (string, seq<Candidate>, nat) -> Response<string>, parse: string -> Option<Verdict>,
                                        query: string, cands: seq<Candidate>, attempt: nat, calls: nat, log: seq<Pause>)
    requires attempt <= Attempts
    requires forall n :: calls < n ==> server(query, cands, n).Raised? || server(query, cands, n).status == 429
    ensures LlmLoop(server, parse, query, cands, attempt, calls, log).answer == Ok(ExhaustedVerdict)
    ensures LlmLoop(server, parse, query, cands, attempt, calls, log).calls == calls + (Attempts - attempt)
    decreases Attempts - attempt
  {
    if attempt < Attempts {
      var c := calls + 1;
      assert server(query, cands, c).Raised? || server(query, cands, c).status == 429;
      LlmAllRetried(server, parse, query, cands, attempt + 1, c, log + ThrottleAfter(c) + [Backoff(RateLimitWait(attempt))]);
    }
  }

  /** A status other than 200, 403 and 429 ends the loop at once, with an
      empty verdict whose reason names the status. */
  lemma LlmOtherStatusStops(server: (string, seq<Candidate>, nat) -> Response<string>, parse: string -> Option<Verdict>,
                            query: string, cands: seq<Candidate>, attempt: nat, calls: nat, log: seq<Pause>)
    requires attempt < Attempts
    requires server(query, cands, calls + 1).Reply?
    requires server(query, cands, calls + 1).status !in {200, 403, 429}
    ensures LlmLoop(server, parse, query, cands, attempt, calls, log).calls == calls + 1
    ensures LlmLoop(server, parse, query, cands, attempt, calls, log).answer ==
      Ok(Fallback("", 0.0, "LLM API " + IntToString(server(query, cands, calls + 1).status)))
  {
  }

  // ---------------------------------------------------------------------------
  // Stable de-duplication (extract_fmu_variable_names)
  // ---------------------------------------------------------------------------

  /** First occurrences, in order. */
  function Dedup(vs: seq<string>): (d: seq<string>)
    decreases |vs|
  {
    if vs == [] then []
    else
      var prev := Dedup(vs[..|vs| - 1]);
      if vs[|vs| - 1] in prev then prev else prev + [vs[|vs| - 1]]
  }

  predicate NoDuplicates(xs: seq<string>) {
    forall i, j :: 0 <= i < j < |xs| ==> xs[i] != xs[j]
  }

  /** The de-duplicated list holds exactly the input's names, each once. */
  lemma {:induction false} DedupElements(vs: seq<string>)
    ensures forall x :: x in Dedup(vs) <==> x in vs
    ensures NoDuplicates(Dedup(vs))
    decreases |vs|
  {
    if vs != [] {
      var init := vs[..|vs| - 1];
      DedupElements(init);
      assert vs == init + [vs[|vs| - 1]];
    }
  }

  /** The index of the first occurrence of `x`. */
  function FirstIndex(vs: seq<string>, x: string): (r: nat)
    requires x in vs
    ensures r < |vs| && vs[r] == x && x !in vs[..r]
  {
    if vs[0] == x then 0
    else
      var r := 1 + FirstIndex(vs[1..], x);
      assert vs[..r] == [vs[0]] + vs[1..][..r - 1];
      r
  }

  /** The first occurrence is fixed once seen: extending the list does not move it. */
  lemma FirstIndexExtend(vs: seq<string>, v: string, x: string)
    requires x in vs
    ensures FirstIndex(vs + [v], x) == FirstIndex(vs, x)
  {
    var a, b := FirstIndex(vs + [v], x), FirstIndex(vs, x);
    if a < b {
      InPrefix(vs, a, b);
    } else if b < a {
      InPrefix(vs + [v], b, a);
    }
  }

  lemma InPrefix(ws: seq<string>, i: nat, n: nat)
    requires i < n <= |ws|
    ensures ws[i] in ws[..n]
  {
    assert ws[..n][i] == ws[i];
  }

  /** The names come out in the order of their first appearance. */
  lemma {:induction false} DedupFirstSeenOrder(vs: seq<string>)
    ensures forall x :: x in Dedup(vs) ==> x in vs
    ensures forall i, j :: 0 <= i < j < |Dedup(vs)| ==>
      FirstIndex(vs, Dedup(vs)[i]) < FirstIndex(vs, Dedup(vs)[j])
    decreases |vs|
  {
    DedupElements(vs);
    if vs != [] {
      var init, last := vs[..|vs| - 1], vs[|vs| - 1];
      assert vs == init + [last];
      DedupFirstSeenOrder(init);
      DedupElements(init);
      var d, prev := Dedup(vs), Dedup(init);
      forall i, j | 0 <= i < j < |d|
        ensures FirstIndex(vs, d[i]) < FirstIndex(vs, d[j])
      {
        FirstIndexExtend(init, last, d[i]);
        if j < |prev| {
          FirstIndexExtend(init, last, d[j]);
        } else {
          assert d[j] == last && last !in init;
        }
      }
    }
  }

  /** The stable-unique loop with its `seen` set. */
  method StableUnique(vs: seq<string>) returns (out: seq<string>)
    ensures out == Dedup(vs)
  {
    var seen: set<string> := {};
    out := [];
    var i := 0;
    while i < |vs|
      invariant 0 <= i <= |vs|
      invariant out == Dedup(vs[..i])
      invariant forall x :: x in seen <==> x in out
    {
      assert vs[..i + 1][..i] == vs[..i];
      if vs[i] !in seen {
        seen := seen + {vs[i]};
        out := out + [vs[i]];
      }
      i := i + 1;
    }
    assert vs[..i] == vs;
  }

  // ---------------------------------------------------------------------------
  // Skip-list partition
  // ---------------------------------------------------------------------------

  predicate InSkipList(v: string, skip: set<string>) {
    Norm(Some(v)) in skip
  }

  /** The names routed through retrieval, in order. */
  function KeptNames(vs: seq<string>, skip: set<string>): (k: seq<string>)
    decreases |vs|
  {
    if vs == [] then []
    else KeptNames(vs[..|vs| - 1], skip) + (if InSkipList(vs[|vs| - 1], skip) then [] else [vs[|vs| - 1]])
  }

  /** The names logged as skipped, in order. */
  function SkippedNames(vs: seq<string>, skip: set<string>): (k: seq<string>)
    decreases |vs|
  {
    if vs == [] then []
    else SkippedNames(vs[..|vs| - 1], skip) + (if InSkipList(vs[|vs| - 1], skip) then [vs[|vs| - 1]] else [])
  }

  /** Every name lands in exactly one of the two lists: together they are the
      input. */
  lemma {:induction false} SplitPartitions(vs: seq<string>, skip: set<string>)
    ensures multiset(KeptNames(vs, skip)) + multiset(SkippedNames(vs, skip)) == multiset(vs)
    decreases |vs|
  {
    if vs != [] {
      var init, last := vs[..|vs| - 1], vs[|vs| - 1];
      SplitPartitions(init, skip);
      var kept, skipped := KeptNames(init, skip), SkippedNames(init, skip);
      if InSkipList(last, skip) {
        assert KeptNames(vs, skip) == kept && SkippedNames(vs, skip) == skipped + [last];
      } else {
        assert KeptNames(vs, skip) == kept + [last] && SkippedNames(vs, skip) == skipped;
      }
      MultisetSnoc(vs);
    }
  }

  lemma MultisetSnoc<T>(xs: seq<T>)
    requires xs != []
    ensures multiset(xs) == multiset(xs[..|xs| - 1]) + multiset{xs[|xs| - 1]}
  {
    assert xs == xs[..|xs| - 1] + [xs[|xs| - 1]];
  }

  /** A name is skipped exactly when its normal form is in the skip list. */
  lemma {:induction false} SkippedAreListed(vs: seq<string>, skip: set<string>)
    ensures forall v :: v in SkippedNames(vs, skip) <==> v in vs && InSkipList(v, skip)
    ensures forall v :: v in KeptNames(vs, skip) <==> v in vs && !InSkipList(v, skip)
    decreases |vs|
  {
    if vs != [] {
      var init := vs[..|vs| - 1];
      SkippedAreListed(init, skip);
      assert vs == init + [vs[|vs| - 1]];
    }
  }

  lemma SplitSizes(vs: seq<string>, skip: set<string>)
    ensures |KeptNames(vs, skip)| + |SkippedNames(vs, skip)| == |vs|
  {
    SplitPartitions(vs, skip);
    assert |multiset(KeptNames(vs, skip))| + |multiset(SkippedNames(vs, skip))| == |multiset(vs)|;
  }

  /** The `kept` / `skipped` loop. */
  method SplitBySkipList(vs: seq<string>, skip: set<string>) returns (kept: seq<string>, skipped: seq<string>)
    ensures kept == KeptNames(vs, skip) && skipped == SkippedNames(vs, skip)
  {
    kept, skipped := [], [];
    var i := 0;
    while i < |vs|
      invariant 0 <= i <= |vs|
      invariant kept == KeptNames(vs[..i], skip) && skipped == SkippedNames(vs[..i], skip)
    {
      assert vs[..i + 1][..i] == vs[..i];
      if Norm(Some(vs[i])) in skip {
        skipped := skipped + [vs[i]];
      } else {
        kept := kept + [vs[i]];
      }
      i := i + 1;
    }
    assert vs[..i] == vs;
  }

  // ---------------------------------------------------------------------------
  // Routing counts
  // ---------------------------------------------------------------------------

  function CountStatus(rows: seq<Row>, s: Status): (n: nat)
    ensures n <= |rows|
    decreases |rows|
  {
    if rows == [] then 0
    else CountStatus(rows[..|rows| - 1], s) + (if rows[|rows| - 1].status == s then 1 else 0)
  }

  /** The four statuses split the rows. */
  lemma {:induction false} CountsSumToTotal(rows: seq<Row>)
    ensures CountStatus(rows, NoMatch) + CountStatus(rows, HumanReview) + CountStatus(rows, Accept)
      + CountStatus(rows, SkippedNotInStandard) == |rows|
    decreases |rows|
  {
    if rows != [] {
      CountsSumToTotal(rows[..|rows| - 1]);
    }
  }

  /** The `counts` dict: every status that occurs, with its number of rows. */
  method RoutingCounts(rows: seq<Row>) returns (counts: map<Status, nat>)
    ensures forall s :: s in counts <==> CountStatus(rows, s) > 0
    ensures forall s :: s in counts ==> counts[s] == CountStatus(rows, s)
  {
    counts := map[];
    var i := 0;
    while i < |rows|
      invariant 0 <= i <= |rows|
      invariant forall s :: s in counts <==> CountStatus(rows[..i], s) > 0
      invariant forall s :: s in counts ==> counts[s] == CountStatus(rows[..i], s)
    {
      assert rows[..i + 1][..i] == rows[..i];
      var s := rows[i].status;
      var n := if s in counts then counts[s] else 0;
      counts := counts[s := n + 1];
      i := i + 1;
    }
    assert rows[..i] == rows;
  }

  // ---------------------------------------------------------------------------
  // What a file adds to the audit log
  // ---------------------------------------------------------------------------

  /** The skip-list rows of the skipped names, in order. */
  function SkippedRows(file: string, skipped: seq<string>): seq<Audit> {
    seq(|skipped|, j requires 0 <= j < |skipped| => SkippedAudit(file, skipped[j]))
  }

  /** What a step of the run leaves behind: its answer, the request counter,
      the pause log and the embedding cache. */
  datatype Outcome<T> = Outcome(answer: T, calls: nat, pauses: seq<Pause>, cache: map<string, seq<real>>)

  /** What routing a list of names leaves behind: the rows appended, the
      error that ended the loop if one did, and the state after it. */
  datatype Routed = Routed(rows: seq<Audit>, failure: Option<string>, calls: nat, pauses: seq<Pause>, cache: map<string, seq<real>>)

  /** A 403 answer, which both clients turn into a `RuntimeError`. */
  predicate Refused<T>(reply: Response<T>) {
    reply.Reply? && reply.status == 403
  }

  /** The candidates the scores of a query put before the LLM. */
  function Shortlist(index: Index, sims: seq<real>): seq<Candidate>
    requires Aligned(index, sims)
  {
    Candidates(index, sims, TopIndices(sims, TopK))
  }

  /** A routing step: the outcome for one name from a request counter, a
      pause log and an embedding cache. */
  type RouteStep = (string, nat, seq<Pause>, map<string, seq<real>>) --> Outcome<Result<Audit>>

  ghost predicate Total(step: RouteStep) {
    forall n: string, c: nat, l: seq<Pause>, m: map<string, seq<real>> :: step.requires(n, c, l, m)
  }

  /** Names handled one after the other, each from the state the one before
      left; the first error ends the loop. */
  function Fold(step: RouteStep, names: seq<string>, calls: nat, log: seq<Pause>, memo: map<string, seq<real>>): Routed
    requires Total(step)
    decreases |names|
  {
    if names == [] then Routed([], None, calls, log, memo)
    else
      var s := step(names[0], calls, log, memo);
      if s.answer.Err? then Routed([], Some(s.answer.msg), s.calls, s.pauses, s.cache)
      else
        var rest := Fold(step, names[1..], s.calls, s.pauses, s.cache);
        Routed([s.answer.value] + rest.rows, rest.failure, rest.calls, rest.pauses, rest.cache)
  }

  /** At most one row per name, and exactly one per name when no error ends
      the loop. */
  lemma {:induction false} FoldLength(step: RouteStep, names: seq<string>, calls: nat, log: seq<Pause>, memo: map<string, seq<real>>)
    requires Total(step)
    ensures |Fold(step, names, calls, log, memo).rows| <= |names|
    ensures Fold(step, names, calls, log, memo).failure.None? <==> |Fold(step, names, calls, log, memo).rows| == |names|
    decreases |names|
  {
    if names != [] {
      var s := step(names[0], calls, log, memo);
      if s.answer.Ok? {
        FoldLength(step, names[1..], s.calls, s.pauses, s.cache);
      }
    }
  }

  /** Row j is the answer of the step for name j from the state the names
      before it left, all of which were handled without error. */
  lemma {:induction false} FoldAt(step: RouteStep, names: seq<string>, calls: nat, log: seq<Pause>, memo: map<string, seq<real>>, j: nat)
    requires Total(step) && j < |Fold(step, names, calls, log, memo).rows|
    ensures j < |names|
    ensures var p := Fold(step, names[..j], calls, log, memo);
      && p.failure.None? && |p.rows| == j
      && step(names[j], p.calls, p.pauses, p.cache).answer == Ok(Fold(step, names, calls, log, memo).rows[j])
    decreases j
  {
    var s := step(names[0], calls, log, memo);
    if j > 0 {
      FoldAt(step, names[1..], s.calls, s.pauses, s.cache, j - 1);
      assert names[..j][0] == names[0] && names[..j][1..] == names[1..][..j - 1];
      assert names[1..][j - 1] == names[j];
    }
  }

  /** The loop from name k on: the step for name k, then the rest. */
  lemma FoldNext(step: RouteStep, names: seq<string>, k: nat, calls: nat, log: seq<Pause>, memo: map<string, seq<real>>)
    requires Total(step) && k < |names|
    ensures var s := step(names[k], calls, log, memo);
      Fold(step, names[k..], calls, log, memo) ==
        if s.answer.Err? then Routed([], Some(s.answer.msg), s.calls, s.pauses, s.cache)
        else
          var rest := Fold(step, names[k + 1..], s.calls, s.pauses, s.cache);
          Routed([s.answer.value] + rest.rows, rest.failure, rest.calls, rest.pauses, rest.cache)
  {
    assert names[k..][0] == names[k] && names[k..][1..] == names[k + 1..];
  }

  /** When every step makes at most `bound` requests, the loop makes at most
      `bound` per name. */
  lemma {:induction false} FoldCalls(step: RouteStep, names: seq<string>, calls: nat, log: seq<Pause>, memo: map<string, seq<real>>, bound: nat)
    requires Total(step)
    requires forall n: string, c: nat, l: seq<Pause>, m: map<string, seq<real>> :: c <= step(n, c, l, m).calls <= c + bound
    ensures calls <= Fold(step, names, calls, log, memo).calls <= calls + bound * |names|
    decreases |names|
  {
    if names != [] {
      var s := step(names[0], calls, log, memo);
      PerNameBound(bound, |names|);
      if s.answer.Ok? {
        FoldCalls(step, names[1..], s.calls, s.pauses, s.cache, bound);
      }
    }
  }

  /** A per-name bound times a non-empty count, split off one name. */
  lemma PerNameBound(bound: nat, n: nat)
    requires n >= 1
    ensures bound <= bound * n && bound * n == bound * (n - 1) + bound
  {
  }

  /** The skip-list rows of the skipped names followed by rows for a prefix
      of the kept names are rows for a prefix of both lists, in order. */
  lemma SkippedThenKept(file: string, skipped: seq<string>, kept: seq<string>, rows: seq<Audit>)
    requires |rows| <= |kept|
    requires forall j :: 0 <= j < |rows| ==> rows[j].row.file == file && rows[j].row.originalName == kept[j]
    ensures var all := SkippedRows(file, skipped) + rows;
      forall j :: 0 <= j < |all| ==>
        j < |skipped + kept| && all[j].row.file == file && all[j].row.originalName == (skipped + kept)[j]
  {
    var all := SkippedRows(file, skipped) + rows;
    forall j | 0 <= j < |all|
      ensures j < |skipped + kept| && all[j].row.file == file && all[j].row.originalName == (skipped + kept)[j]
    {
      if j < |skipped| {
        assert all[j] == SkippedAudit(file, skipped[j]);
      } else {
        assert all[j] == rows[j - |skipped|];
      }
    }
  }

  lemma AppendOne<T>(xs: seq<T>, x: T, ys: seq<T>)
    ensures xs + ([x] + ys) == (xs + [x]) + ys
  {
  }

  // ---------------------------------------------------------------------------
  // The pipeline state
  // ---------------------------------------------------------------------------

  class Pipeline {
    const embedServer: (string, nat) -> Response<seq<real>>
    const llmServer: (string, seq<Candidate>, nat) -> Response<string>
    const parse: string -> Option<Verdict>
    /** Cosine similarity of a query vector against every stored ontology vector. */
    const similarity: seq<real> -> seq<real>
    const index: Index
    const dim: nat
    /** The normalised names of the skip list. */
    const skipSet: set<string>

    /** `_api_calls`. */
    var apiCalls: nat
    /** Every `time.sleep`, in order. */
    var pauses: seq<Pause>
    /** `_EMBED_CACHE`, keyed by stripped text. */
    var cache: map<string, seq<real>>
    /** `all_results` and `all_audit`. */
    var results: seq<Row>
    var audit: seq<Audit>

    ghost predicate Valid()
      reads this
    {
      && (forall v :: Aligned(index, similarity(v)))
      && |results| == |audit|
      && (forall i :: 0 <= i < |audit| ==> results[i] == audit[i].row && WellRouted(audit[i]))
    }

    constructor(embedServer: (string, nat) -> Response<seq<real>>, llmServer: (string, seq<Candidate>, nat) -> Response<string>,
                parse: string -> Option<Verdict>, similarity: seq<real> -> seq<real>, index: Index, dim: nat, skipSet: set<string>)
      requires forall v :: Aligned(index, similarity(v))
      ensures Valid()
      ensures this.embedServer == embedServer && this.llmServer == llmServer && this.parse == parse
      ensures this.similarity == similarity && this.index == index && this.dim == dim && this.skipSet == skipSet
      ensures apiCalls == 0 && pauses == [] && cache == map[] && results == [] && audit == []
    {
      this.embedServer := embedServer;
      this.llmServer := llmServer;
      this.parse := parse;
      this.similarity := similarity;
      this.index := index;
      this.dim := dim;
      this.skipSet := skipSet;
      apiCalls := 0;
      pauses := [];
      cache := map[];
      results := [];
      audit := [];
    }

    /** `throttle`: number the request, then pause. */
    method Throttle()
      modifies this`apiCalls, this`pauses
      ensures apiCalls == old(apiCalls) + 1
      ensures pauses == old(pauses) + ThrottleAfter(apiCalls)
    {
      apiCalls := apiCalls + 1;
      if apiCalls % ThrottleEveryN == 0 {
        pauses := pauses + [ThrottlePause];
      }
    }

    /** `embed_text` from a given counter, pause log and cache: the cached
        vector of the stripped text, or the retry loop of `EmbedLoop`,
        caching only a vector that came from a 200. */
    function EmbedStep(text: string, calls: nat, log: seq<Pause>, memo: map<string, seq<real>>): Outcome<Result<seq<real>>> {
      var key := Strip(text);
      if key in memo then Outcome(Ok(memo[key]), calls, log, memo)
      else
        var run := EmbedLoop(embedServer, key, FirstAttempt, calls, log);
        Outcome(EmbedResult(run.answer, dim), run.calls, run.pauses,
          if run.answer.Fetched? then memo[key := run.answer.vec] else memo)
    }

    /** A cached text costs no request. Otherwise at most seven requests are
        made; an error means the last one was refused with a 403; the vector
        is the zero vector after all seven attempts, or the body of a 200
        answer to the last request, and only such a body enters the cache.
        Cached vectors stay, and earlier pauses are kept. */
    lemma EmbedStepOutcome(text: string, calls: nat, log: seq<Pause>, memo: map<string, seq<real>>)
      ensures var s := EmbedStep(text, calls, log, memo);
        && (Strip(text) in memo ==> s == Outcome(Ok(memo[Strip(text)]), calls, log, memo))
        && calls <= s.calls <= calls + Attempts
        && |log| <= |s.pauses| && s.pauses[..|log|] == log
        && (s.answer.Err? ==> Strip(text) !in memo && calls < s.calls && Refused(embedServer(Strip(text), s.calls)))
        && (s.answer.Ok? && Strip(text) !in memo ==>
              (s.answer.value == Zeros(dim) && s.calls == calls + Attempts && s.cache == memo)
              || (calls < s.calls && embedServer(Strip(text), s.calls) == Reply(200, s.answer.value)
                  && s.cache == memo[Strip(text) := s.answer.value]))
        && (forall k :: k in memo ==> k in s.cache && s.cache[k] == memo[k])
    {
      var key := Strip(text);
      if key !in memo {
        EmbedLoopOutcome(embedServer, key, FirstAttempt, calls, log);
        var run := EmbedLoop(embedServer, key, FirstAttempt, calls, log);
        assert EmbedStep(text, calls, log, memo) ==
          Outcome(EmbedResult(run.answer, dim), run.calls, run.pauses, if run.answer.Fetched? then memo[key := run.answer.vec] else memo);
      }
    }

    /** `embed_text`: the step `EmbedStep` defines, from the current state. */
    method EmbedText(text: string) returns (r: Result<seq<real>>)
      modifies this`apiCalls, this`pauses, this`cache
      ensures Outcome(r, apiCalls, pauses, cache) == EmbedStep(text, old(apiCalls), old(pauses), old(cache))
    {
      var key := Strip(text);
      if key in cache {
        return Ok(cache[key]);
      }
      var e := FetchEmbedding(key);
      if e.Fetched? {
        cache := cache[key := e.vec];
      }
      r := EmbedResult(e, dim);
    }

    /** The retry loop of `embed_text` for a key not in the cache. */
    method FetchEmbedding(key: string) returns (e: Embedding)
      modifies this`apiCalls, this`pauses
      ensures Run(e, apiCalls, pauses) == EmbedLoop(embedServer, key, FirstAttempt, old(apiCalls), old(pauses))
    {
      var attempt := FirstAttempt;
      while attempt < Attempts
        invariant attempt <= Attempts
        invariant EmbedLoop(embedServer, key, attempt, apiCalls, pauses) == EmbedLoop(embedServer, key, FirstAttempt, old(apiCalls), old(pauses))
      {
        Throttle();
        var reply := embedServer(key, apiCalls);
        var answer := EmbedAnswer(reply);
        if answer.Some? {
          return answer.value;
        }
        pauses := pauses + [Backoff(EmbedWait(reply, attempt))];
        attempt := attempt + 1;
      }
      return Exhausted;
    }

    /** `reason_llm`: the retry loop of `LlmLoop`, which makes at most seven
        requests. */
    method ReasonLlm(query: string, cands: seq<Candidate>) returns (r: Result<Verdict>)
      modifies this`apiCalls, this`pauses
      ensures Run(r, apiCalls, pauses) == LlmLoop(llmServer, parse, query, cands, FirstAttempt, old(apiCalls), old(pauses))
      ensures old(apiCalls) <= apiCalls <= old(apiCalls) + Attempts
    {
      LlmLoopOutcome(llmServer, parse, query, cands, FirstAttempt, apiCalls, pauses);
      r := AskLlm(query, cands);
    }

    /** The attempt loop of `reason_llm`. */
    method AskLlm(query: string, cands: seq<Candidate>) returns (r: Result<Verdict>)
      modifies this`apiCalls, this`pauses
      ensures Run(r, apiCalls, pauses) == LlmLoop(llmServer, parse, query, cands, FirstAttempt, old(apiCalls), old(pauses))
    {
      var attempt := FirstAttempt;
      while attempt < Attempts
        invariant attempt <= Attempts
        invariant LlmLoop(llmServer, parse, query, cands, attempt, apiCalls, pauses) ==
          LlmLoop(llmServer, parse, query, cands, FirstAttempt, old(apiCalls), old(pauses))
      {
        Throttle();
        var answer := LlmAnswer(parse, llmServer(query, cands, apiCalls));
        if answer.Some? {
          return answer.value;
        }
        pauses := pauses + [Backoff(RateLimitWait(attempt))];
        attempt := attempt + 1;
      }
      return Ok(ExhaustedVerdict);
    }

    /** The processing of one kept name from a given state: the OOD gate,
        the embedding of its query, retrieval, the score gates, and the LLM
        on the shortlist. A 403 from either service raises. */
    function RouteOne(file: string, name: string, calls: nat, log: seq<Pause>, memo: map<string, seq<real>>): Outcome<Result<Audit>>
      requires forall v :: Aligned(index, similarity(v))
    {
      if IsOod(Some(name)) then Outcome(Ok(OodAudit(file, name)), calls, log, memo)
      else
        var query := Query(name);
        var e := EmbedStep(query, calls, log, memo);
        if e.answer.Err? then Outcome(Err(e.answer.msg), e.calls, e.pauses, e.cache)
        else
          var sims := similarity(e.answer.value);
          var idx := TopIndices(sims, TopK);
          var screened := Screen(file, name, index, sims, idx);
          if screened.Some? then Outcome(Ok(screened.value), e.calls, e.pauses, e.cache)
          else
            var llm := LlmLoop(llmServer, parse, query, Candidates(index, sims, idx), FirstAttempt, e.calls, e.pauses);
            var answer := if llm.answer.Err? then Err(llm.answer.msg) else Ok(LlmAudit(file, name, index, sims, idx, llm.answer.value));
            Outcome(answer, llm.calls, llm.pauses, e.cache)
    }

    /** A gated name costs nothing and gets the OOD row; any other costs at
        most fourteen requests. A routed row is well routed and for its own
        file and name. An error means the last request was refused with a
        403: by the embedding service for the query, or by the chat service
        for the query and the shortlist of some scores. */
    lemma RouteOneOutcome(file: string, name: string, calls: nat, log: seq<Pause>, memo: map<string, seq<real>>)
      requires forall v :: Aligned(index, similarity(v))
      ensures var s := RouteOne(file, name, calls, log, memo);
        && (IsOod(Some(name)) ==> s == Outcome(Ok(OodAudit(file, name)), calls, log, memo))
        && calls <= s.calls <= calls + 2 * Attempts
        && (s.answer.Ok? ==>
              && WellRouted(s.answer.value) && s.answer.value.route != SkipList
              && s.answer.value.row.file == file && s.answer.value.row.originalName == name)
        && (s.answer.Err? ==>
              && calls < s.calls
              && (Refused(embedServer(Query(name), s.calls))
                  || exists v :: Refused(llmServer(Query(name), Shortlist(index, similarity(v)), s.calls))))
    {
      if !IsOod(Some(name)) {
        var query := Query(name);
        QueryIsStripped(name);
        EmbedStepOutcome(query, calls, log, memo);
        var e := EmbedStep(query, calls, log, memo);
        if e.answer.Ok? {
          var sims := similarity(e.answer.value);
          var idx := TopIndices(sims, TopK);
          if Screen(file, name, index, sims, idx).None? {
            var cands := Candidates(index, sims, idx);
            LlmLoopOutcome(llmServer, parse, query, cands, FirstAttempt, e.calls, e.pauses);
            assert cands == Shortlist(index, similarity(e.answer.value));
          }
        }
      }
    }

    /** A name past the gate that is routed gets the row `Decide` gives for
        the scores of the vector its query was embedded to, which is the
        cached vector, the body of a 200 answer to one of its requests, or
        the zero vector after seven failed attempts. */
    lemma RouteOneDecides(file: string, name: string, calls: nat, log: seq<Pause>, memo: map<string, seq<real>>)
      requires forall v :: Aligned(index, similarity(v))
      ensures var s := RouteOne(file, name, calls, log, memo);
        !IsOod(Some(name)) && s.answer.Ok? ==>
          exists vec, verdict ::
            && s.answer.value == Decide(file, name, index, similarity(vec), verdict)
            && (  (Query(name) in memo && vec == memo[Query(name)])
               || vec == Zeros(dim)
               || exists n :: calls < n <= s.calls && embedServer(Query(name), n) == Reply(200, vec))
    {
      var s := RouteOne(file, name, calls, log, memo);
      if !IsOod(Some(name)) && s.answer.Ok? {
        var query := Query(name);
        QueryIsStripped(name);
        EmbedStepOutcome(query, calls, log, memo);
        var e := EmbedStep(query, calls, log, memo);
        var vec := e.answer.value;
        var sims := similarity(vec);
        var idx := TopIndices(sims, TopK);
        if Screen(file, name, index, sims, idx).None? {
          var cands := Candidates(index, sims, idx);
          var llm := LlmLoop(llmServer, parse, query, cands, FirstAttempt, e.calls, e.pauses);
          LlmLoopOutcome(llmServer, parse, query, cands, FirstAttempt, e.calls, e.pauses);
          assert s.answer.value == Decide(file, name, index, sims, llm.answer.value);
        } else {
          assert s.answer.value == Decide(file, name, index, sims, ExhaustedVerdict);
        }
        if query !in memo && vec != Zeros(dim) {
          assert calls < e.calls <= s.calls && embedServer(query, e.calls) == Reply(200, vec);
        }
      }
    }

    /** A routed row is well routed. */
    lemma RouteOneWell(file: string, name: string, calls: nat, log: seq<Pause>, memo: map<string, seq<real>>)
      requires forall v :: Aligned(index, similarity(v))
      ensures var s := RouteOne(file, name, calls, log, memo);
        s.answer.Ok? ==> WellRouted(s.answer.value)
    {
      RouteOneOutcome(file, name, calls, log, memo);
    }

    /** `RouteOne` as a step value, for one file. */
    function Router(file: string): (step: RouteStep)
      requires forall v :: Aligned(index, similarity(v))
      ensures Total(step)
      ensures forall n: string, c: nat, l: seq<Pause>, m: map<string, seq<real>> :: step(n, c, l, m) == RouteOne(file, n, c, l, m)
    {
      (n: string, c: nat, l: seq<Pause>, m: map<string, seq<real>>) requires forall v :: Aligned(index, similarity(v)) =>
        RouteOne(file, n, c, l, m)
    }

    /** The routing of kept names one after the other from a given state; the
        first error ends the loop. */
    function RouteAll(file: string, names: seq<string>, calls: nat, log: seq<Pause>, memo: map<string, seq<real>>): Routed
      requires forall v :: Aligned(index, similarity(v))
    {
      Fold(Router(file), names, calls, log, memo)
    }

    /** One row per name, in order, unless an error ends the loop early;
        every row is well routed and for its file and name; at most fourteen
        requests per name. */
    lemma RouteAllRows(file: string, names: seq<string>, calls: nat, log: seq<Pause>, memo: map<string, seq<real>>)
      requires forall v :: Aligned(index, similarity(v))
      ensures var w := RouteAll(file, names, calls, log, memo);
        && |w.rows| <= |names|
        && (w.failure.None? <==> |w.rows| == |names|)
        && calls <= w.calls <= calls + 2 * Attempts * |names|
        && (forall j :: 0 <= j < |w.rows| ==>
              w.rows[j].row.file == file && w.rows[j].row.originalName == names[j]
              && WellRouted(w.rows[j]) && w.rows[j].route != SkipList)
    {
      var step := Router(file);
      var w := Fold(step, names, calls, log, memo);
      FoldLength(step, names, calls, log, memo);
      forall n: string, c: nat, l: seq<Pause>, m: map<string, seq<real>>
        ensures c <= step(n, c, l, m).calls <= c + 2 * Attempts
      {
        RouteOneOutcome(file, n, c, l, m);
      }
      FoldCalls(step, names, calls, log, memo, 2 * Attempts);
      forall j | 0 <= j < |w.rows|
        ensures w.rows[j].row.file == file && w.rows[j].row.originalName == names[j]
        ensures WellRouted(w.rows[j]) && w.rows[j].route != SkipList
      {
        FoldAt(step, names, calls, log, memo, j);
        var p := Fold(step, names[..j], calls, log, memo);
        RouteOneOutcome(file, names[j], p.calls, p.pauses, p.cache);
      }
    }

    /** Row j is what routing name j gives from the state the names before
        it left, all of which were routed without error. */
    lemma RouteAllAt(file: string, names: seq<string>, calls: nat, log: seq<Pause>, memo: map<string, seq<real>>, j: nat)
      requires forall v :: Aligned(index, similarity(v))
      requires j < |RouteAll(file, names, calls, log, memo).rows|
      ensures j < |names|
      ensures var p := RouteAll(file, names[..j], calls, log, memo);
        && p.failure.None? && |p.rows| == j
        && RouteOne(file, names[j], p.calls, p.pauses, p.cache).answer == Ok(RouteAll(file, names, calls, log, memo).rows[j])
    {
      FoldAt(Router(file), names, calls, log, memo, j);
    }

    /** A file that raises no error gets one row per distinct extracted name,
        the skipped names first and then the kept ones, each for that file. */
    lemma FileRowsPerName(file: string, extracted: seq<string>, calls: nat, log: seq<Pause>, memo: map<string, seq<real>>)
      requires forall v :: Aligned(index, similarity(v))
      ensures var names := Dedup(extracted);
        var skipped := SkippedNames(names, skipSet);
        var kept := KeptNames(names, skipSet);
        var w := RouteAll(file, kept, calls, log, memo);
        var rows := SkippedRows(file, skipped) + w.rows;
        && (forall j :: 0 <= j < |rows| ==>
              j < |skipped + kept| && rows[j].row.file == file && rows[j].row.originalName == (skipped + kept)[j])
        && (w.failure.None? ==> |rows| == |names|)
    {
      var names := Dedup(extracted);
      var skipped := SkippedNames(names, skipSet);
      var kept := KeptNames(names, skipSet);
      RouteAllRows(file, kept, calls, log, memo);
      SplitSizes(names, skipSet);
      var w := RouteAll(file, kept, calls, log, memo);
      SkippedThenKept(file, skipped, kept, w.rows);
    }

    /** The processing of one kept name: the step `RouteOne` defines, from
        the current state. */
    method RouteName(file: string, name: string) returns (r: Result<Audit>)
      requires Valid()
      modifies this`apiCalls, this`pauses, this`cache
      ensures Outcome(r, apiCalls, pauses, cache) == RouteOne(file, name, old(apiCalls), old(pauses), old(cache))
    {
      if IsOod(Some(name)) {
        return Ok(OodAudit(file, name));
      }
      var query := Query(name);
      var qvec := EmbedText(query);
      if qvec.Err? {
        return Err(qvec.msg);
      }
      var sims := similarity(qvec.value);
      var idx := TopIndices(sims, TopK);
      var screened := Screen(file, name, index, sims, idx);
      if screened.Some? {
        return Ok(screened.value);
      }
      var top := Candidates(index, sims, idx);
      var verdict := ReasonLlm(query, top);
      if verdict.Err? {
        return Err(verdict.msg);
      }
      return Ok(LlmAudit(file, name, index, sims, idx, verdict.value));
    }

    /** Append one row to both logs. */
    method Log(a: Audit)
      requires Valid() && WellRouted(a)
      modifies this`results, this`audit
      ensures Valid()
      ensures results == old(results) + [a.row] && audit == old(audit) + [a]
    {
      results := results + [a.row];
      audit := audit + [a];
    }

    /** The rows of the skipped names, logged before any request. */
    method LogSkipped(file: string, skipped: seq<string>)
      requires Valid()
      modifies this`results, this`audit
      ensures Valid()
      ensures audit == old(audit) + SkippedRows(file, skipped)
    {
      var i := 0;
      while i < |skipped|
        invariant 0 <= i <= |skipped|
        invariant Valid()
        invariant audit == old(audit) + SkippedRows(file, skipped[..i])
      {
        assert SkippedRows(file, skipped[..i + 1]) == SkippedRows(file, skipped[..i]) + [SkippedAudit(file, skipped[i])];
        Log(SkippedAudit(file, skipped[i]));
        i := i + 1;
      }
      assert skipped[..i] == skipped;
    }

    /** `RouteName` seen through a step value equal to `RouteOne`; a routed
        row is well routed. */
    method RouteVia(ghost step: RouteStep, file: string, name: string) returns (r: Result<Audit>)
      requires Valid() && Total(step)
      requires forall n: string, c: nat, l: seq<Pause>, m: map<string, seq<real>> {:trigger RouteOne(file, n, c, l, m)} ::
        step.requires(n, c, l, m) && step(n, c, l, m) == RouteOne(file, n, c, l, m)
      modifies this`apiCalls, this`pauses, this`cache
      ensures Outcome(r, apiCalls, pauses, cache) == step(name, old(apiCalls), old(pauses), old(cache))
      ensures r.Ok? ==> WellRouted(r.value)
    {
      r := RouteName(file, name);
      RouteOneWell(file, name, old(apiCalls), old(pauses), old(cache));
    }

    /** The loop over the kept names with the step `RouteOne` as a value. */
    method RouteEach(ghost step: RouteStep, file: string, kept: seq<string>) returns (r: Result<()>)
      requires Valid() && Total(step)
      requires forall n: string, c: nat, l: seq<Pause>, m: map<string, seq<real>> {:trigger RouteOne(file, n, c, l, m)} ::
        step.requires(n, c, l, m) && step(n, c, l, m) == RouteOne(file, n, c, l, m)
      modifies this`results, this`audit, this`apiCalls, this`pauses, this`cache
      ensures Valid()
      ensures var w := Fold(step, kept, old(apiCalls), old(pauses), old(cache));
        && audit == old(audit) + w.rows
        && apiCalls == w.calls && pauses == w.pauses && cache == w.cache
        && (r.Err? <==> w.failure.Some?) && (r.Err? ==> w.failure == Some(r.msg))
    {
      var k := 0;
      while k < |kept|
        invariant 0 <= k <= |kept|
        invariant Valid()
        invariant |old(audit)| <= |audit| && audit == old(audit) + audit[|old(audit)|..]
        invariant var rest := Fold(step, kept[k..], apiCalls, pauses, cache);
          Fold(step, kept, old(apiCalls), old(pauses), old(cache)) ==
          Routed(audit[|old(audit)|..] + rest.rows, rest.failure, rest.calls, rest.pauses, rest.cache)
      {
        ghost var done := audit[|old(audit)|..];
        ghost var (c, p, m) := (apiCalls, pauses, cache);
        FoldNext(step, kept, k, c, p, m);
        var a := RouteVia(step, file, kept[k]);
        if a.Err? {
          assert done + [] == done;
          return Err(a.msg);
        }
        Log(a.value);
        assert audit[|old(audit)|..] == done + [a.value];
        AppendOne(done, a.value, Fold(step, kept[k + 1..], apiCalls, pauses, cache).rows);
        k := k + 1;
      }
      assert kept[k..] == [];
      assert audit[|old(audit)|..] + [] == audit[|old(audit)|..];
      return Ok(());
    }

    /** The kept names, routed one after the other; the first error ends the
        loop. The rows and the state are those `RouteAll` defines. */
    method RouteKept(file: string, kept: seq<string>) returns (r: Result<()>)
      requires Valid()
      modifies this`results, this`audit, this`apiCalls, this`pauses, this`cache
      ensures Valid()
      ensures var w := RouteAll(file, kept, old(apiCalls), old(pauses), old(cache));
        && audit == old(audit) + w.rows
        && apiCalls == w.calls && pauses == w.pauses && cache == w.cache
        && (r.Err? <==> w.failure.Some?) && (r.Err? ==> w.failure == Some(r.msg))
    {
      r := RouteEach(Router(file), file, kept);
    }

    /** One `.ttl` file of `run_multifile`: de-duplicate the extracted names,
        log the skipped ones first, then route the kept ones in order, as
        `RouteAll` defines. */
    method RunFile(file: string, extracted: seq<string>) returns (r: Result<()>)
      requires Valid()
      modifies this`results, this`audit, this`apiCalls, this`pauses, this`cache
      ensures Valid()
      ensures var names := Dedup(extracted);
        var w := RouteAll(file, KeptNames(names, skipSet), old(apiCalls), old(pauses), old(cache));
        && audit == old(audit) + SkippedRows(file, SkippedNames(names, skipSet)) + w.rows
        && apiCalls == w.calls && pauses == w.pauses && cache == w.cache
        && (r.Err? <==> w.failure.Some?)
    {
      var names := StableUnique(extracted);
      var kept, skipped := SplitBySkipList(names, skipSet);
      LogSkipped(file, skipped);
      r := RouteKept(file, kept);
    }
  }
}
