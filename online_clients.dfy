/** The retry loops of the evaluation agents and of the first pipeline
    scripts. Unlike the ECMS pipeline they keep no request counter: each call
    numbers its own attempts from 1, and the service's answers to one call are
    a script `nat -> Response` from attempt number to answer. Sleeps are
    recorded as `Backoff` pauses. */
module OnlineClients {
  import opened Wrappers
  import opened Text
  import opened Clients

  /** `MAX_RETRIES` and `BACKOFF` of the evaluation agents. */
  const EvalRetries: nat := 2
  const RateLimitSleep: nat := 8
  /** The pause after a network error in `embed_text_online`. */
  const NetworkSleep: nat := 5
  /** The first value of `attempt` in `range(1, ...)`. Contracts name it
      through this constant so that the loops are not unfolded eagerly. */
  const FirstTry: nat := 1
  /** The length of a `text-embedding-3-large` vector, used for the fallback. */
  const EmbeddingDim: nat := 3072

  predicate IsOk<T>(reply: Response<T>) {
    reply.Reply? && reply.status == 200
  }

  // ---------------------------------------------------------------------------
  // embed_text_online of the evaluation agents: 429 and network errors sleep,
  // any other status goes straight to the next attempt
  // ---------------------------------------------------------------------------

  /** The loop from `attempt` on, after the sleeps `log`. */
  function EvalEmbedLoop(server: nat -> Response<seq<real>>, dim: nat, attempt: nat, log: seq<Pause>): Run<seq<real>>
    requires FirstTry <= attempt <= EvalRetries + 1
    decreases EvalRetries + 1 - attempt
  {
    if attempt == EvalRetries + 1 then Run(Zeros(dim), EvalRetries, log)
    else
      var reply := server(attempt);
      if reply.Raised? then EvalEmbedLoop(server, dim, attempt + 1, log + [Backoff(NetworkSleep)])
      else if reply.status == 200 then Run(reply.body, attempt, log)
      else if reply.status == 429 then EvalEmbedLoop(server, dim, attempt + 1, log + [Backoff(RateLimitSleep)])
      else EvalEmbedLoop(server, dim, attempt + 1, log)
  }

  /** At most `MAX_RETRIES` posts; the vector is the body of the first 200,
      and without a 200 it is the zero vector after every attempt was made. */
  lemma {:induction false} EvalEmbedOutcome(server: nat -> Response<seq<real>>, dim: nat, attempt: nat, log: seq<Pause>)
    requires FirstTry <= attempt <= EvalRetries + 1
    ensures var r := EvalEmbedLoop(server, dim, attempt, log);
      && attempt - 1 <= r.calls <= EvalRetries
      && (forall n :: attempt <= n < r.calls ==> !IsOk(server(n)))
      && (r.calls >= attempt && IsOk(server(r.calls)) ==> r.answer == server(r.calls).body)
      && (!(r.calls >= attempt && IsOk(server(r.calls))) ==>
            && r.calls == EvalRetries && r.answer == Zeros(dim)
            && forall n :: attempt <= n <= EvalRetries ==> !IsOk(server(n)))
    decreases EvalRetries + 1 - attempt
  {
    if attempt <= EvalRetries {
      var reply := server(attempt);
      if reply.Raised? {
        EvalEmbedOutcome(server, dim, attempt + 1, log + [Backoff(NetworkSleep)]);
      } else if reply.status == 429 {
        EvalEmbedOutcome(server, dim, attempt + 1, log + [Backoff(RateLimitSleep)]);
      } else if reply.status != 200 {
        EvalEmbedOutcome(server, dim, attempt + 1, log);
      }
    }
  }

  /** A status other than 200 and 429 is retried without a sleep: a service
      that only answers such statuses yields the zero vector and no sleep. */
  lemma {:induction false} EvalEmbedNoSleepOnOtherStatus(server: nat -> Response<seq<real>>, dim: nat, attempt: nat, log: seq<Pause>)
    requires FirstTry <= attempt <= EvalRetries + 1
    requires forall n :: server(n).Reply? && server(n).status != 200 && server(n).status != 429
    ensures EvalEmbedLoop(server, dim, attempt, log) == Run(Zeros(dim), EvalRetries, log)
    decreases EvalRetries + 1 - attempt
  {
    if attempt <= EvalRetries {
      assert server(attempt).Reply? && server(attempt).status !in {200, 429};
      EvalEmbedNoSleepOnOtherStatus(server, dim, attempt + 1, log);
    }
  }

  /** Every sleep is the rate-limit backoff or the network pause, one at most
      per attempt. */
  lemma {:induction false} EvalEmbedSleeps(server: nat -> Response<seq<real>>, dim: nat, attempt: nat, log: seq<Pause>)
    requires FirstTry <= attempt <= EvalRetries + 1
    ensures var r := EvalEmbedLoop(server, dim, attempt, log);
      && |log| <= |r.pauses| <= |log| + (EvalRetries + 1 - attempt)
      && r.pauses[..|log|] == log
      && forall i :: |log| <= i < |r.pauses| ==> r.pauses[i] in {Backoff(RateLimitSleep), Backoff(NetworkSleep)}
    decreases EvalRetries + 1 - attempt
  {
    if attempt <= EvalRetries {
      var reply := server(attempt);
      if !(reply.Reply? && reply.status == 200) {
        var next := if reply.Raised? then log + [Backoff(NetworkSleep)]
                    else if reply.status == 429 then log + [Backoff(RateLimitSleep)]
                    else log;
        assert EvalEmbedLoop(server, dim, attempt, log) == EvalEmbedLoop(server, dim, attempt + 1, next);
        EvalEmbedSleeps(server, dim, attempt + 1, next);
        var ps := EvalEmbedLoop(server, dim, attempt + 1, next).pauses;
        assert ps[..|log|] == ps[..|next|][..|log|];
        forall i | |log| <= i < |ps|
          ensures ps[i] in {Backoff(RateLimitSleep), Backoff(NetworkSleep)}
        {
          if i < |next| {
            assert ps[i] == ps[..|next|][i] == next[i];
          }
        }
      }
    }
  }

  /** `embed_text_online(text, dim)` of the evaluation agents, for the
      service's answers `server` to this text. */
  method EmbedForEval(server: nat -> Response<seq<real>>, dim: nat) returns (v: seq<real>, posts: nat, sleeps: seq<Pause>)
    ensures Run(v, posts, sleeps) == EvalEmbedLoop(server, dim, FirstTry, [])
  {
    var attempt := FirstTry;
    sleeps := [];
    while attempt <= EvalRetries
      invariant FirstTry <= attempt <= EvalRetries + 1
      invariant EvalEmbedLoop(server, dim, attempt, sleeps) == EvalEmbedLoop(server, dim, FirstTry, [])
      decreases EvalRetries + 1 - attempt
    {
      var reply := server(attempt);
      if reply.Raised? {
        sleeps := sleeps + [Backoff(NetworkSleep)];
      } else if reply.status == 200 {
        return reply.body, attempt, sleeps;
      } else if reply.status == 429 {
        sleeps := sleeps + [Backoff(RateLimitSleep)];
      }
      attempt := attempt + 1;
    }
    return Zeros(dim), EvalRetries, sleeps;
  }

  // ---------------------------------------------------------------------------
  // reason_best_match of the evaluation agents
  // ---------------------------------------------------------------------------

  /** `{"original": var, "best_match": "", "confidence": 0.0, "reason": why}`. */
  function Declined(original: Field<string>, why: string): (v: Verdict)
    ensures v.original == original && v.reason == Value(why)
    ensures v.bestMatch == Value("") && v.confidence == Value(0.0)
  {
    Verdict(original, Value(""), Value(0.0), Value(why))
  }

  /** The `original` the agents write for a variable: its name, or `null`
      for a variable without one. */
  function OriginalOf(name: Option<string>): (f: Field<string>)
    ensures name.None? <==> f.Null?
    ensures name.Some? ==> f == Value(name.value)
  {
    if name.Some? then Value(name.value) else Null
  }

  predicate IsRateLimited<T>(reply: Response<T>) {
    reply.Reply? && reply.status == 429
  }

  /** What an answer other than 429 makes of the call. The POST is outside
      the `try`, so a network error raises out of it; another non-200 gives
      up with "API <code>"; a 200 is parsed from its brace slice and returned
      as it stands, or answered with "parse error". */
  function ReasonAnswer(parse: string -> Option<Verdict>, original: Field<string>, reply: Response<string>): (r: Result<Verdict>)
    ensures r.Err? <==> reply.Raised?
    ensures reply.Reply? && reply.status != 200 ==> r == Ok(Declined(original, "API " + IntToString(reply.status)))
    ensures IsOk(reply) && parse(JsonSlice(reply.body)).Some? ==> r == Ok(parse(JsonSlice(reply.body)).value)
    ensures IsOk(reply) && parse(JsonSlice(reply.body)).None? ==> r == Ok(Declined(original, "parse error"))
  {
    if reply.Raised? then Err("RequestException")
    else if reply.status != 200 then Ok(Declined(original, "API " + IntToString(reply.status)))
    else Ok(parse(JsonSlice(reply.body)).GetOr(Declined(original, "parse error")))
  }

  /** The loop from `attempt` on: 429 sleeps and retries, any other answer
      ends the call. */
  function EvalReasonLoop(server: nat -> Response<string>, parse: string -> Option<Verdict>, original: Field<string>,
                          exhausted: string, attempt: nat, log: seq<Pause>): Run<Result<Verdict>>
    requires FirstTry <= attempt <= EvalRetries + 1
    decreases EvalRetries + 1 - attempt
  {
    if attempt == EvalRetries + 1 then Run(Ok(Declined(original, exhausted)), EvalRetries, log)
    else
      var reply := server(attempt);
      if IsRateLimited(reply) then
        EvalReasonLoop(server, parse, original, exhausted, attempt + 1, log + [Backoff(RateLimitSleep)])
      else Run(ReasonAnswer(parse, original, reply), attempt, log)
  }

  /** At most `MAX_RETRIES` posts, and an 8 s sleep after each 429 and after
      nothing else. The first answer other than 429 decides the call; after
      429 to every attempt the verdict is the `exhausted` one. */
  lemma {:induction false} EvalReasonOutcome(server: nat -> Response<string>, parse: string -> Option<Verdict>, original: Field<string>,
                                            exhausted: string, attempt: nat, log: seq<Pause>)
    requires FirstTry <= attempt <= EvalRetries + 1
    ensures var r := EvalReasonLoop(server, parse, original, exhausted, attempt, log);
      && attempt - 1 <= r.calls <= EvalRetries
      && (forall n :: attempt <= n < r.calls ==> IsRateLimited(server(n)))
      && r.pauses[..|log|] == log
      && (forall i :: |log| <= i < |r.pauses| ==> r.pauses[i] == Backoff(RateLimitSleep))
      && (r.calls >= attempt && !IsRateLimited(server(r.calls)) ==>
            r.answer == ReasonAnswer(parse, original, server(r.calls)) && |r.pauses| == |log| + (r.calls - attempt))
      && (!(r.calls >= attempt && !IsRateLimited(server(r.calls))) ==>
            r.calls == EvalRetries && r.answer == Ok(Declined(original, exhausted))
            && |r.pauses| == |log| + (EvalRetries + 1 - attempt)
            && forall n :: attempt <= n <= EvalRetries ==> IsRateLimited(server(n)))
    decreases EvalRetries + 1 - attempt
  {
    if attempt <= EvalRetries && IsRateLimited(server(attempt)) {
      var next := log + [Backoff(RateLimitSleep)];
      EvalReasonOutcome(server, parse, original, exhausted, attempt + 1, next);
      var ps := EvalReasonLoop(server, parse, original, exhausted, attempt + 1, next).pauses;
      assert ps[..|log|] == ps[..|next|][..|log|];
      forall i | |log| <= i < |ps|
        ensures ps[i] == Backoff(RateLimitSleep)
      {
        if i < |next| {
          assert ps[i] == ps[..|next|][i] == next[i];
        }
      }
    }
  }

  /** `reason_best_match(var, query_text, top_matches)` of the evaluation
      agents, for the service's answers `server` to this prompt. */
  method ReasonForEval(server: nat -> Response<string>, parse: string -> Option<Verdict>, name: Option<string>, exhausted: string)
    returns (r: Result<Verdict>, posts: nat, sleeps: seq<Pause>)
    ensures Run(r, posts, sleeps) == EvalReasonLoop(server, parse, OriginalOf(name), exhausted, FirstTry, [])
  {
    var attempt := FirstTry;
    sleeps := [];
    while attempt <= EvalRetries
      invariant FirstTry <= attempt <= EvalRetries + 1
      invariant EvalReasonLoop(server, parse, OriginalOf(name), exhausted, attempt, sleeps) ==
        EvalReasonLoop(server, parse, OriginalOf(name), exhausted, FirstTry, [])
      decreases EvalRetries + 1 - attempt
    {
      var reply := server(attempt);
      if !IsRateLimited(reply) {
        return ReasonAnswer(parse, OriginalOf(name), reply), attempt, sleeps;
      }
      sleeps := sleeps + [Backoff(RateLimitSleep)];
      attempt := attempt + 1;
    }
    return Ok(Declined(OriginalOf(name), exhausted)), EvalRetries, sleeps;
  }

  // ---------------------------------------------------------------------------
  // embed_text_online of the first pipeline scripts: every failure is retried,
  // with a fixed sleep only between attempts
  // ---------------------------------------------------------------------------

  /** The loop from `attempt` on, for `retries` attempts and a sleep of
      `pause` seconds. */
  function PatientEmbedLoop(server: nat -> Response<seq<real>>, retries: nat, pause: nat, attempt: nat, log: seq<Pause>): Run<seq<real>>
    requires FirstTry <= attempt <= retries + 1
    decreases retries + 1 - attempt
  {
    if attempt == retries + 1 then Run(Zeros(EmbeddingDim), retries, log)
    else
      var reply := server(attempt);
      if IsOk(reply) then Run(reply.body, attempt, log)
      else PatientEmbedLoop(server, retries, pause, attempt + 1, if attempt < retries then log + [Backoff(pause)] else log)
  }

  /** At most `retries` posts; the vector is the body of the first 200, else
      the 3072-long zero vector after all `retries` posts; one sleep of
      `pause` seconds between two posts and none after the last. */
  lemma {:induction false} PatientEmbedOutcome(server: nat -> Response<seq<real>>, retries: nat, pause: nat, attempt: nat, log: seq<Pause>)
    requires FirstTry <= attempt <= retries + 1
    ensures var r := PatientEmbedLoop(server, retries, pause, attempt, log);
      && attempt - 1 <= r.calls <= retries
      && (forall n :: attempt <= n < r.calls ==> !IsOk(server(n)))
      && (r.calls >= attempt && IsOk(server(r.calls)) ==> r.answer == server(r.calls).body)
      && (!(r.calls >= attempt && IsOk(server(r.calls))) ==> r.calls == retries && r.answer == Zeros(EmbeddingDim))
      && r.pauses == log + seq(if r.calls >= attempt then r.calls - attempt else 0, i => Backoff(pause))
    decreases retries + 1 - attempt
  {
    if attempt <= retries && !IsOk(server(attempt)) {
      var next := if attempt < retries then log + [Backoff(pause)] else log;
      PatientEmbedOutcome(server, retries, pause, attempt + 1, next);
      var r := PatientEmbedLoop(server, retries, pause, attempt + 1, next);
      if attempt < retries {
        assert r.calls >= attempt + 1 || r.calls == retries;
        assert [Backoff(pause)] + seq(if r.calls >= attempt + 1 then r.calls - (attempt + 1) else 0, i => Backoff(pause))
            == seq(r.calls - attempt, i => Backoff(pause));
      }
    }
  }

  /** `embed_text_online(text, retries, sleep)`, for the service's answers
      `server` to this text. */
  method EmbedPatiently(server: nat -> Response<seq<real>>, retries: nat, pause: nat) returns (v: seq<real>, posts: nat, sleeps: seq<Pause>)
    ensures Run(v, posts, sleeps) == PatientEmbedLoop(server, retries, pause, FirstTry, [])
  {
    var attempt := FirstTry;
    sleeps := [];
    while attempt <= retries
      invariant FirstTry <= attempt <= retries + 1
      invariant PatientEmbedLoop(server, retries, pause, attempt, sleeps) == PatientEmbedLoop(server, retries, pause, FirstTry, [])
      decreases retries + 1 - attempt
    {
      var reply := server(attempt);
      if reply.Reply? && reply.status == 200 {
        return reply.body, attempt, sleeps;
      }
      if attempt < retries {
        sleeps := sleeps + [Backoff(pause)];
      }
      attempt := attempt + 1;
    }
    return Zeros(EmbeddingDim), retries, sleeps;
  }
}
