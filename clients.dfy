/** What the embedding and chat-completion clients of every pipeline variant
    share: the shape of an HTTP answer, the zero-vector fallback, the backoff
    arithmetic, the fields of an LLM verdict and the brace slicing that
    extracts a JSON object from the model's reply. */
module Clients {
  import opened Wrappers
  import opened Text

  /** One POST: either an HTTP answer (status code and body) or a raised
      `requests.exceptions.RequestException` (time-out, connection error).
      For the embedding service a 200 body is the embedding vector; for the
      chat service a 200 body is the message content and any other body is the
      response text. */
  datatype Response<T> = Reply(status: int, body: T) | Raised

  /** A `time.sleep` the clients make: the per-request throttle of the ECMS
      pipeline (1.7 s), the pacing pause after a routed variable (1.3 s), or a
      whole number of seconds of backoff. */
  datatype Pause = ThrottlePause | Pace | Backoff(seconds: nat)

  /** What a retry loop leaves behind: its answer, the request counter after
      it, and the pauses it made, in order. */
  datatype Run<T> = Run(answer: T, calls: nat, pauses: seq<Pause>)

  /** `np.zeros(dim)`: the neutral vector returned when the retries run out. */
  function Zeros(dim: nat): (v: seq<real>)
    ensures |v| == dim
    ensures forall i :: 0 <= i < dim ==> v[i] == 0.0
  {
    seq(dim, i requires 0 <= i < dim => 0.0)
  }

  function Pow2(n: nat): (p: nat)
    ensures p >= 1
  {
    if n == 0 then 1 else 2 * Pow2(n - 1)
  }

  function Min(a: int, b: int): int {
    if a <= b then a else b
  }

  /** A field of a parsed JSON object: absent, present as `null`, or present. */
  datatype Field<T> = Missing | Null | Value(v: T)

  /** The dict an LLM client returns: `original`, `best_match`, `confidence`
      and `reason` are each absent, null or present. */
  datatype Verdict = Verdict(
    original: Field<string>,
    bestMatch: Field<string>,
    confidence: Field<real>,
    reason: Field<string>)

  /** A dict literal `{"best_match": best, "confidence": conf, "reason": why}`. */
  function Fallback(best: string, conf: real, why: string): (v: Verdict)
    ensures v.original.Missing?
    ensures v.bestMatch == Value(best) && v.confidence == Value(conf) && v.reason == Value(why)
  {
    Verdict(Missing, Value(best), Value(conf), Value(why))
  }

  /** `content[content.find("{") : content.rfind("}") + 1]`. With a `{` before
      the last `}`, the slice runs from the first `{` to the last `}`
      inclusive, so it opens with `{` and closes with `}`. */
  function JsonSlice(content: string): (r: string)
    ensures |r| <= |content|
    ensures '{' in content && '}' in content && Find(content, '{') <= RFind(content, '}') ==>
      r == content[Find(content, '{')..RFind(content, '}') + 1] && |r| > 0 && r[0] == '{' && r[|r| - 1] == '}'
  {
    var lo, hi := Find(content, '{'), RFind(content, '}') + 1;
    if 0 <= lo < hi then SliceInBounds(content, lo, hi); PySlice(content, lo, hi)
    else PySlice(content, lo, hi)
  }

  /** Without a closing brace the slice ends at 0, so it is empty, whatever
      `find("{")` gives (even -1, which Python reads as the last index). */
  lemma NoClosingBraceEmptySlice(content: string)
    requires '}' !in content
    ensures JsonSlice(content) == ""
  {
  }

  /** A slice whose bounds are already in range is the plain subsequence. */
  lemma SliceInBounds(s: string, lo: int, hi: int)
    requires 0 <= lo < hi <= |s|
    ensures PySlice(s, lo, hi) == s[lo..hi]
    ensures PySlice(s, lo, hi)[0] == s[lo] && PySlice(s, lo, hi)[hi - lo - 1] == s[hi - 1]
  {
  }
}
