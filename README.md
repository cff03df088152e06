# SHIP-ONTOLOGY matching pipeline, modelled in Dafny

SHIP-ONTOLOGY maps the variables of ship-equipment (OEM) data files onto a
ship ontology. Each pipeline variant does three things for every variable.
It turns the variable into a query text and embeds it with a remote embedding
service. It ranks the ontology entries by similarity to that embedding. It
then decides on a match, on its own or by asking a remote chat model to choose
among the best entries. Around this sit evaluation scripts, a filter for rows
the standard does not cover, two JSON-LD repair scripts, and the script that
cuts the ontology into text chunks and embeds them.

This project models that decision and bookkeeping logic and proves properties
of it. The remote services, the similarity arithmetic and all file handling
are parameters.

- `EcmsRouting` and `EcmsPipeline` model the ECMS pipeline
  (`TESTFILES/ECMSPIPELINE/masteragent_ecms.py`):
  - confidence bucketing, name normalisation and the out-of-domain token gate;
  - the low-similarity, margin and LLM branches of the per-variable decision;
  - the throttled embedding client with its text-keyed cache, and the chat
    client, both with backoff schedules;
  - the stable de-duplication of extracted names and the skip-list split;
  - a `Pipeline` class holding the request counter, the recorded pauses, the
    cache and the result and audit rows that `run_multifile` appends to.
- `Units`, `CorrectedAgent`, `SlowerAgent`, `EvalRows` and `OnlineClients`
  model the two evaluation agents (`TESTFILES/masteragentcorrected.py` and
  `TESTFILES/slowermasteragent.py`) and the retry loops of every variant.
  The corrected agent adds unit normalisation and compatibility scoring,
  unit-adjusted ranking, and abstention on incompatible units.
- `QudtLabels`, `QueryText`, `MasterAgent`, `TopMatches` and `AgentOne` model
  the first pipeline scripts (`TESTFILES/masteragent.py` and
  `TESTFILES/AGENT1.py`): unit labels, query construction, top-K retrieval,
  and defaulting of the LLM's verdict.
- `Retrieval` specifies the top-K ranking (`np.argsort(sims)[::-1][:k]`) that
  every variant uses. Proved properties hold for any ranking that meets this
  specification, whatever order it gives to tied scores.
- `EcmsEval`, `EvalResults` and `FilterTrash` model the evaluation scripts
  and the result filter:
  - key normalisation and the left join;
  - the confusion cells and their counts;
  - the guarded ratios;
  - domain extraction and the label order of the confusion matrix;
  - the exclusion keys and the kept/excluded split.
- `JsonValue`, `Fixer`, `Ficxer` and `EmbedOntology` model the JSON-LD tools
  (`fixer.py`, `ficxer.py`, `TESTFILES/embed_ontology.py`). JSON values are a
  datatype whose objects keep insertion order. The recursive id rewrite, the
  reference fix-up, the flattening serialiser, chunk building and batching are
  functions over it.
- `Text`, `Clients` and `Wrappers` hold the Python string operations, the
  shape of an HTTP answer and the brace slicing of a chat reply, and
  `Option`/`Result`.

The network is a script. In the ECMS pipeline it is a function from what is
sent, and from the number the throttle gives the request, to the answer. In
the other variants it is a function from the attempt number to the answer. A
sleep is recorded as a pause in a log. A raised exception is an `Err` result.

## Model

| member | source | states |
|---|---|---|
| EcmsRouting.RouteByConf | TESTFILES/ECMSPIPELINE/masteragent_ecms.py:197-202 | a confidence at or below 0.40 is NO_MATCH, one in (0.40, 0.45] is HUMAN_REVIEW, one above 0.45 is ACCEPT, each as an if-and-only-if; the skip status never comes out |
| EcmsRouting.RouteMonotone | TESTFILES/ECMSPIPELINE/masteragent_ecms.py:197-202 | a higher confidence never lands in a lower bucket of NO_MATCH < HUMAN_REVIEW < ACCEPT |
| EcmsRouting.Norm | TESTFILES/ECMSPIPELINE/masteragent_ecms.py:77-78 | None normalises to "", a string to something no longer than it with no upper-case letter |
| EcmsRouting.NormIdempotent | TESTFILES/ECMSPIPELINE/masteragent_ecms.py:77-78 | normalising twice is normalising once, so normalised skip entries and normalised names compare on equal terms |
| EcmsRouting.UnderscoreBlocksGate | TESTFILES/ECMSPIPELINE/masteragent_ecms.py:194-195 | `_` is a word character: "Eng_PLC" passes the out-of-domain gate while "plc_x" is caught, case-insensitively |
| EcmsRouting.IsOod | TESTFILES/ECMSPIPELINE/masteragent_ecms.py:194-195 | a name is out of domain exactly when one of Pkt, PLC, FW, DbgVar and Checksum starts at a word boundary in it, ignoring case; a missing name is "" |
| EcmsRouting.SkippedAudit | TESTFILES/ECMSPIPELINE/masteragent_ecms.py:262-272 | a skipped name gets status SKIPPED_NOT_IN_STANDARD, method SKIP_LIST, empty match, confidence 0.0 and no candidates |
| EcmsRouting.OodAudit | TESTFILES/ECMSPIPELINE/masteragent_ecms.py:276-287 | a gated name gets status NO_MATCH, reason OOD, method OOD_GATE, empty match, confidence 0.0 and no candidates |
| EcmsRouting.Query | TESTFILES/ECMSPIPELINE/masteragent_ecms.py:289 | the embedded text wraps the name in `Variable '...' from OEM dataset` |
| EcmsRouting.QueryIsStripped | TESTFILES/ECMSPIPELINE/masteragent_ecms.py:289 | the query has no surrounding white space, so the stripped cache key of `embed_text` is the query itself |
| EcmsRouting.Compact | TESTFILES/ECMSPIPELINE/masteragent_ecms.py:298-302 | the compact candidate list pairs each retrieved candidate's id with its score, one entry per candidate, in ranking order |
| EcmsRouting.Screen | TESTFILES/ECMSPIPELINE/masteragent_ecms.py:293-333 | a row is decided from the scores exactly when the top score is below 0.45 (LOW_SIM: empty match, confidence = top score) or there are two candidates with a gap of at least 0.06 (AUTO_MARGIN: the top id, confidence min(0.99, top)); the status is the bucket of the confidence; otherwise the name goes to the LLM |
| EcmsRouting.LlmAudit | TESTFILES/ECMSPIPELINE/masteragent_ecms.py:335-349 | after the LLM, a missing or null best_match reads as "", a missing or null confidence as 0.0, and the status is the bucket of that confidence |
| EcmsRouting.Decide | TESTFILES/ECMSPIPELINE/masteragent_ecms.py:287-349 | a name past the gate gets the score-gate row when the gates decide it and the LLM row otherwise; the row is well routed, for its file and name, and lists the top-five candidates of the scores |
| EcmsRouting.LowSimNeverAccepts | TESTFILES/ECMSPIPELINE/masteragent_ecms.py:304-317 | a low-similarity row is NO_MATCH or HUMAN_REVIEW with an empty match, never ACCEPT |
| EcmsRouting.LowSimCanAskForReview | TESTFILES/ECMSPIPELINE/masteragent_ecms.py:304-317 | because 0.40 < 0.45, a top score of 0.42 gives HUMAN_REVIEW with an empty match |
| EcmsRouting.AutoMarginNeverRejects | TESTFILES/ECMSPIPELINE/masteragent_ecms.py:319-333 | a margin row picks the top id with confidence at most 0.99 and is never NO_MATCH |
| EcmsRouting.StatusFollowsConfidence | TESTFILES/ECMSPIPELINE/masteragent_ecms.py:304-338 | every row that was not skipped has the bucket of its own confidence as status |
| EcmsRouting.WellRouted | TESTFILES/ECMSPIPELINE/masteragent_ecms.py:261-349 | what each row of the audit log satisfies by the method that decided it: skip and OOD rows are empty with confidence 0.0, a low-similarity row has an empty match and the top score as confidence, a margin row picks the top id, and every decided row has the status of its confidence |
| EcmsRouting.ScreenIgnoresTies | TESTFILES/ECMSPIPELINE/masteragent_ecms.py:293-296 | the branch taken and its confidence and status do not depend on how the ranking orders equal scores |
| EcmsPipeline.RateLimitWait | TESTFILES/ECMSPIPELINE/masteragent_ecms.py:120-121 | the exponential backoff after a 429 or a network error lies between 8 and 60 seconds |
| EcmsPipeline.OtherWait | TESTFILES/ECMSPIPELINE/masteragent_ecms.py:124-125 | the linear backoff after any other failed status lies between 8 and 30 seconds |
| EcmsPipeline.EmbedWait | TESTFILES/ECMSPIPELINE/masteragent_ecms.py:120-130 | the embedding client backs off exponentially after a 429 or a network error and linearly after any other failed status |
| EcmsPipeline.EmbedAnswer | TESTFILES/ECMSPIPELINE/masteragent_ecms.py:112-126 | an answer ends the embedding loop exactly when it is a 200 (with the vector) or a 403 (refused); everything else retries |
| EcmsPipeline.EmbedLoopOutcome | TESTFILES/ECMSPIPELINE/masteragent_ecms.py:107-133 | the embedding loop makes at most one request per remaining attempt and all of them when it runs out; a vector is the body of a 200 answer to the last request, a refusal comes from a 403 to it; the pauses already made are kept |
| EcmsPipeline.EmbedLoop | TESTFILES/ECMSPIPELINE/masteragent_ecms.py:107-133 | the embedding retry loop: each attempt throttles and posts; a 200 ends it with the vector, a 403 with a refusal, anything else backs off and retries |
| EcmsPipeline.EmbedResult | TESTFILES/ECMSPIPELINE/masteragent_ecms.py:112-133 | `embed_text` returns the fetched vector, the zero vector of the index dimension once retries run out, and raises exactly on a 403 |
| EcmsPipeline.EmbedPausesBounded | TESTFILES/ECMSPIPELINE/masteragent_ecms.py:107-130 | every pause the embedding loop adds is the throttle or a backoff of at most a minute |
| EcmsPipeline.RateLimitedStep | TESTFILES/ECMSPIPELINE/masteragent_ecms.py:107-122 | an attempt answered by 429 throttles, backs off exponentially and moves on to the next attempt with the next request number |
| EcmsPipeline.EmbedAllRateLimited | TESTFILES/ECMSPIPELINE/masteragent_ecms.py:107-133 | a service that only answers 429 makes the loop spend all seven attempts, pause on the throttle and the exponential schedule, and return the zero vector |
| EcmsPipeline.RateLimitedScheduleValues | TESTFILES/ECMSPIPELINE/masteragent_ecms.py:107-121 | the seven backoffs of an always-429 run are 8, 16, 32, 60, 60, 60 and 60 seconds, each after a throttle pause |
| EcmsPipeline.ParseReply | TESTFILES/ECMSPIPELINE/masteragent_ecms.py:173-178 | the reply's brace-delimited slice is parsed; text that does not parse gives the empty "LLM parse error" verdict |
| EcmsPipeline.NoBraceIsParseError | TESTFILES/ECMSPIPELINE/masteragent_ecms.py:174-178 | a reply without a closing brace slices to "" and so gives the parse-error verdict |
| EcmsPipeline.LlmAnswer | TESTFILES/ECMSPIPELINE/masteragent_ecms.py:172-190 | the chat loop retries exactly on a 429 or a network error, and raises exactly on a 403 |
| EcmsPipeline.LlmLoopOutcome | TESTFILES/ECMSPIPELINE/masteragent_ecms.py:155-192 | the chat loop makes at most one request per remaining attempt and raises only on a 403 answer to its last request |
| EcmsPipeline.LlmLoop | TESTFILES/ECMSPIPELINE/masteragent_ecms.py:155-192 | the chat retry loop: a 200 ends it with the parsed reply, a 403 raises, 429 and network errors back off and retry, any other status ends it with an empty verdict naming the status |
| EcmsPipeline.LlmAllRetried | TESTFILES/ECMSPIPELINE/masteragent_ecms.py:155-192 | a service that only answers 429 or times out uses all seven attempts and yields the empty "retries exhausted" verdict |
| EcmsPipeline.LlmOtherStatusStops | TESTFILES/ECMSPIPELINE/masteragent_ecms.py:187 | any status other than 200, 403 and 429 ends the loop after that one request with an empty verdict whose reason names the status |
| EcmsPipeline.DedupElements | TESTFILES/ECMSPIPELINE/masteragent_ecms.py:213-219 | the de-duplicated names are exactly the extracted names, each once |
| EcmsPipeline.Dedup | TESTFILES/ECMSPIPELINE/masteragent_ecms.py:213-219 | the first occurrences of the extracted names, in order |
| EcmsPipeline.DedupFirstSeenOrder | TESTFILES/ECMSPIPELINE/masteragent_ecms.py:213-219 | the de-duplicated names keep the order of their first appearance |
| EcmsPipeline.StableUnique | TESTFILES/ECMSPIPELINE/masteragent_ecms.py:214-219 | the loop with its `seen` set returns each name once, in order of first appearance (the list `Dedup` defines, whose properties are `DedupElements` and `DedupFirstSeenOrder`) |
| EcmsPipeline.SplitPartitions | TESTFILES/ECMSPIPELINE/masteragent_ecms.py:255-257 | kept and skipped names together are the input, as a multiset |
| EcmsPipeline.SkippedAreListed | TESTFILES/ECMSPIPELINE/masteragent_ecms.py:255-257 | a name is skipped exactly when its normal form is in the skip set, and kept exactly when it is not |
| EcmsPipeline.KeptNames | TESTFILES/ECMSPIPELINE/masteragent_ecms.py:255-257 | the names whose normal form is not in the skip set, in order |
| EcmsPipeline.SkippedNames | TESTFILES/ECMSPIPELINE/masteragent_ecms.py:255-257 | the names whose normal form is in the skip set, in order |
| EcmsPipeline.SplitSizes | TESTFILES/ECMSPIPELINE/masteragent_ecms.py:255-259 | the kept and skipped counts add up to the extracted count |
| EcmsPipeline.SplitBySkipList | TESTFILES/ECMSPIPELINE/masteragent_ecms.py:255-257 | the split loop returns the names whose normal form is outside the skip set and those whose normal form is inside it, each in input order |
| EcmsPipeline.CountsSumToTotal | TESTFILES/ECMSPIPELINE/masteragent_ecms.py:370-375 | the per-status counts of the four statuses add up to the number of rows |
| EcmsPipeline.RoutingCounts | TESTFILES/ECMSPIPELINE/masteragent_ecms.py:370-372 | the counts map holds exactly the statuses that occur, each with its number of rows |
| EcmsPipeline.Pipeline.constructor | TESTFILES/ECMSPIPELINE/masteragent_ecms.py:229-246 | a run starts with no requests, no pauses, an empty cache and no rows |
| EcmsPipeline.Pipeline.Throttle | TESTFILES/ECMSPIPELINE/masteragent_ecms.py:64-68 | the global request counter goes up by one and a throttle pause follows every request |
| EcmsPipeline.Pipeline.EmbedText | TESTFILES/ECMSPIPELINE/masteragent_ecms.py:99-133 | the method leaves the answer, the request counter, the pause log and the cache that `EmbedStep` defines for the state it starts from |
| EcmsPipeline.Pipeline.FetchEmbedding | TESTFILES/ECMSPIPELINE/masteragent_ecms.py:107-133 | the attempt loop ends in the state and answer of the embedding loop's definition |
| EcmsPipeline.Pipeline.ReasonLlm | TESTFILES/ECMSPIPELINE/masteragent_ecms.py:140-192 | the attempt loop ends in the state and answer of the chat loop's definition, after at most seven requests |
| EcmsPipeline.Pipeline.RouteName | TESTFILES/ECMSPIPELINE/masteragent_ecms.py:275-349 | the method leaves the answer, the request counter, the pause log and the cache that `RouteOne` defines for the state it starts from, so its row is the OOD row, the score-gate row or the LLM row of `Decide` for the embedded query, and its error is a 403 from one of the two services |
| EcmsPipeline.Pipeline.EmbedStep | TESTFILES/ECMSPIPELINE/masteragent_ecms.py:99-133 | `embed_text` from a given counter, pause log and cache: the cached vector of the stripped text, or the retry loop, with only a 200 vector entering the cache |
| EcmsPipeline.Pipeline.EmbedStepOutcome | TESTFILES/ECMSPIPELINE/masteragent_ecms.py:99-133 | a cached text costs no request; otherwise at most seven requests, an error only when the last was refused with 403, and a vector that is the zero vector after all seven attempts or the body of a 200 to the last request, which alone is cached; cached vectors stay |
| EcmsPipeline.Pipeline.RouteOne | TESTFILES/ECMSPIPELINE/masteragent_ecms.py:275-349 | the processing of one kept name from a given state: the OOD gate, the embedding of the query, retrieval of the top five, the score gates and the LLM on the shortlist; a 403 from either service raises |
| EcmsPipeline.Pipeline.RouteOneOutcome | TESTFILES/ECMSPIPELINE/masteragent_ecms.py:275-349 | a gated name gets the OOD row and costs nothing; any other costs at most fourteen requests; a row is well routed and for its file and name; an error means the last request was refused with 403 by the embedding service for the query or by the chat service for a shortlist |
| EcmsPipeline.Pipeline.RouteOneDecides | TESTFILES/ECMSPIPELINE/masteragent_ecms.py:287-349 | a routed name past the gate gets the row `Decide` gives for the scores of the vector its query was embedded to, and that vector is the cached one, the body of a 200 answer to one of its requests, or the zero vector |
| EcmsPipeline.Pipeline.RouteAll | TESTFILES/ECMSPIPELINE/masteragent_ecms.py:274-349 | the loop over the kept names, each routed from the state the one before left, stopping at the first error |
| EcmsPipeline.Pipeline.RouteAllRows | TESTFILES/ECMSPIPELINE/masteragent_ecms.py:274-349 | at most one row per kept name and exactly one each when no error stops the loop; every row is well routed, not a skip row, and for its file and name; at most fourteen requests per name |
| EcmsPipeline.Pipeline.RouteAllAt | TESTFILES/ECMSPIPELINE/masteragent_ecms.py:274-349 | row j is what routing name j gives from the state the names before it left, all of which were routed without error |
| EcmsPipeline.Pipeline.FileRowsPerName | TESTFILES/ECMSPIPELINE/masteragent_ecms.py:248-349 | a file that raises no error gets one row per distinct extracted name, the skipped names first and then the kept ones, each for that file |
| EcmsPipeline.Fold | TESTFILES/ECMSPIPELINE/masteragent_ecms.py:274-349 | names handled one after the other, each from the state the one before left, with the first error ending the loop |
| EcmsPipeline.FoldLength | TESTFILES/ECMSPIPELINE/masteragent_ecms.py:274-349 | the loop gives at most one row per name, and exactly one per name when no error ends it |
| EcmsPipeline.FoldAt | TESTFILES/ECMSPIPELINE/masteragent_ecms.py:274-349 | row j is the step's answer for name j from the state the error-free names before it left |
| EcmsPipeline.FoldCalls | TESTFILES/ECMSPIPELINE/masteragent_ecms.py:274-349 | when every step makes at most a given number of requests, the loop makes at most that number per name |
| EcmsPipeline.SkippedRows | TESTFILES/ECMSPIPELINE/masteragent_ecms.py:261-272 | the skip-list rows of the skipped names, one per name, in order |
| EcmsPipeline.Pipeline.Log | TESTFILES/ECMSPIPELINE/masteragent_ecms.py:271-272 | a row is appended to the results and its audit row to the audit log, keeping the two aligned |
| EcmsPipeline.Pipeline.LogSkipped | TESTFILES/ECMSPIPELINE/masteragent_ecms.py:261-272 | the audit log grows by exactly one skip-list row per skipped name, in order, and nothing before is changed |
| EcmsPipeline.Pipeline.RouteKept | TESTFILES/ECMSPIPELINE/masteragent_ecms.py:274-349 | the audit log grows by exactly the rows `RouteAll` gives for the kept names from the starting state, which leaves the counter, pauses and cache; the method fails exactly when `RouteAll` records an error, with that error |
| EcmsPipeline.Pipeline.RouteEach | TESTFILES/ECMSPIPELINE/masteragent_ecms.py:274-349 | the loop over the kept names, one `RouteName` and one logged row per name, leaves the rows, counter, pauses and cache the fold of the routing step defines, and stops with the first error |
| EcmsPipeline.Pipeline.RunFile | TESTFILES/ECMSPIPELINE/masteragent_ecms.py:248-349 | for one file the audit log grows by the skip-list rows of the skipped distinct names and then the rows `RouteAll` gives for the kept ones, ending in its state; the file fails exactly when `RouteAll` records an error |
| Units.FirstCanonical | TESTFILES/masteragentcorrected.py:150-153 | the lookup returns the key of the first equivalence class, in insertion order, that holds the token, and "" when none does |
| Units.UnitKey | TESTFILES/masteragentcorrected.py:149 | the lookup key has the `unit:` prefix and `#` removed and holds no lower-case letter |
| Units.NormalizeUnitToken | TESTFILES/masteragentcorrected.py:136-153 | the result is "" or one of the seven canonical units, and it is non-empty exactly when the token is non-empty and its key is one of the listed variants |
| Units.CanonicalKeys | TESTFILES/masteragentcorrected.py:136-144 | every key of the equivalence table is a non-empty canonical unit |
| Units.MixedCaseVariantsUnreachable | TESTFILES/masteragentcorrected.py:139-152 | since the key is upper-cased first, a recognised token always matched an all-upper-case variant: `KiloN`, `KiloN-M` and `Normal_m3` can never match |
| Units.UpperVariantsOnly | TESTFILES/masteragentcorrected.py:136-144 | a listed variant with no lower-case letter is one of the ten upper-case variants |
| Units.KiloNewtonNotRecognised | TESTFILES/masteragentcorrected.py:139-153 | the QUDT unit `unit:KiloN` normalises to "", not to kN |
| Units.KiloNewtonKey | TESTFILES/masteragentcorrected.py:149 | the key of `unit:KiloN` is `KILON` |
| Units.PrefixOnlyKey | TESTFILES/masteragentcorrected.py:149 | a token that is `unit:` followed by a name with no `u` and no `#` keys on the upper-cased name |
| Units.InferUnitFromVarname | TESTFILES/masteragentcorrected.py:155-166 | a missing or empty name has no unit; any inferred unit is one of the canonical units |
| Units.KnmBeforeKn | TESTFILES/masteragentcorrected.py:161-162 | a name holding `_knm` is never read as kN, because that rule comes first |
| Units.UnderscoreMReadsAsMetres | TESTFILES/masteragentcorrected.py:164 | any `_m` fragment reads as metres: `Engine_Mode` is given the unit m |
| Units.NoUnderscoreRule | TESTFILES/masteragentcorrected.py:159-163 | a name whose every `_` is followed by `m` holds none of the fragments tested before the metre rule |
| Units.FirstFiringUnit | TESTFILES/masteragentcorrected.py:171-179 | the id tests give "" or the unit of one of the rules |
| Units.UnitFromCandidateId | TESTFILES/masteragentcorrected.py:168-179 | an empty id has no unit; any unit read from an id is canonical |
| Units.UnitCompatScore | TESTFILES/masteragentcorrected.py:181-190 | the compatibility is one of 1.0, 0.85, 0.8 and 0.5 |
| Units.CompatScoreValues | TESTFILES/masteragentcorrected.py:181-190 | the score is symmetric; it is 1.0 exactly for equal units, 0.85 exactly for rpm against rev/s, and 0.8 exactly when the units differ and one is unknown |
| Units.CompatBelowFloor | TESTFILES/masteragentcorrected.py:181-190 | the score is below 0.7 exactly when both units are known, differ and are not the rpm / rev/s pair |
| CorrectedAgent.FirmwareNeedsSeparator | TESTFILES/masteragentcorrected.py:192-195 | the firmware pattern needs `_` or `-` after FW: "fw-version" is gated (case ignored) while "FWVersion" is not |
| CorrectedAgent.IsOod | TESTFILES/masteragentcorrected.py:192-195 | a name is out of domain exactly when it is non-empty and one of the eight patterns (`FW[_-]` written out as `FW_` and `FW-`) starts at a word boundary in it, ignoring case |
| CorrectedAgent.Extract | TESTFILES/masteragentcorrected.py:218-225 | a variable keeps its name; its unit is the normalised QUDT unit when that is recognised, otherwise the unit inferred from the name, and is "" or canonical |
| CorrectedAgent.Query | TESTFILES/masteragentcorrected.py:242-244 | the query starts with `Variable '<name>' from OEM dataset` and ends with the ` [unit=...]` suffix exactly when the unit is known |
| CorrectedAgent.WeightsAt | TESTFILES/masteragentcorrected.py:251-253 | the weight of candidate i is the compatibility of the variable's unit with the unit of candidate i's id |
| CorrectedAgent.Adjusted | TESTFILES/masteragentcorrected.py:250-255 | each adjusted score is the raw score of the same candidate times that candidate's unit weight |
| CorrectedAgent.AdjustScores | TESTFILES/masteragentcorrected.py:250-255 | the loop over the scores builds exactly the adjusted scores |
| CorrectedAgent.WeightOf | TESTFILES/masteragentcorrected.py:252-253 | the factor applied to candidate i is the unit-compatibility score of the variable's unit with the unit read from candidate i's id |
| CorrectedAgent.Weight | TESTFILES/masteragentcorrected.py:252-253 | the factor of a candidate is the compatibility of the variable's unit with the unit read from the candidate's id |
| CorrectedAgent.AdjustedBounds | TESTFILES/masteragentcorrected.py:250-255 | a non-negative score is never raised and at most halved; it is kept whole for a candidate of the variable's unit and halved for one whose compatibility is below 0.7 |
| CorrectedAgent.AutoConfidence | TESTFILES/masteragentcorrected.py:276 | the auto-pick confidence is the top adjusted score clamped to [0.5, 0.99] |
| CorrectedAgent.Screen | TESTFILES/masteragentcorrected.py:256-286 | the variable abstains exactly when there are no candidates or the top adjusted score is below 0.45, with confidence 0.0 and no match; it is auto-picked exactly when there are two candidates whose adjusted gap is at least 0.06, naming the top id with confidence `AutoConfidence(top)` = min(0.99, max(0.5, top)), which lies in [0.5, 0.99]; otherwise the LLM is asked |
| CorrectedAgent.ScreenIgnoresTies | TESTFILES/masteragentcorrected.py:256-258 | two rankings of the same adjusted scores take the same branch with the same confidence, however ties were ordered |
| CorrectedAgent.ScreenDependsOnTopTwo | TESTFILES/masteragentcorrected.py:262-276 | the branch and the confidence depend only on the two best adjusted scores |
| CorrectedAgent.AfterLlm | TESTFILES/masteragentcorrected.py:289-301 | a named match whose unit compatibility is below 0.7 becomes the "incompatible units" abstain; otherwise the row is read from the verdict; a row that names a match therefore has a compatible unit; the call fails only on a raised network error or a null confidence |
| CorrectedAgent.AbstainNeedsKnownUnits | TESTFILES/masteragentcorrected.py:289-293 | the LLM is overruled only when both units are known, differ, and are not rpm against rev/s |
| CorrectedAgent.Retrieve | TESTFILES/masteragentcorrected.py:242-258 | retrieval embeds the variable's query with one or two POSTs and yields one adjusted score per candidate and a top-5 ranking of them |
| CorrectedAgent.AskLlmStep | TESTFILES/masteragentcorrected.py:288-303 | the LLM branch adds at most two POSTs and gives a row for the variable in which every confident match is explained |
| CorrectedAgent.VarOutcome | TESTFILES/masteragentcorrected.py:229-303 | a gated variable gets the OOD row with no request and no sleep; any other costs one to four POSTs; every row is for the variable's file and name, and any row naming a match is an auto-pick or a unit-compatible LLM pick |
| CorrectedAgent.RetrieveFor | TESTFILES/masteragentcorrected.py:242-258 | embedding the query, scoring, unit-adjusting and ranking give the retrieval `Retrieve` defines: the variable's query, between one and two POSTs, adjusted scores parallel to the index, and a top-5 ranking of them |
| CorrectedAgent.AskLlmFor | TESTFILES/masteragentcorrected.py:288-303 | the LLM branch yields the row `AskLlmStep` defines: a row for this file and variable, at most two more POSTs, and a confident match only when its units are compatible |
| CorrectedAgent.EvalVariable | TESTFILES/masteragentcorrected.py:229-303 | the per-variable statements (OOD gate, retrieval, unit adjustment, abstain and LLM branches) give exactly the outcome the function `VarOutcome` defines, whose properties are the lemmas above |
| CorrectedAgent.VarsLoopRows | TESTFILES/masteragentcorrected.py:229-303 | a file's loop appends one row per variable, in order, each for that file and name and each explained, and keeps the rows before |
| CorrectedAgent.VarsLoop | TESTFILES/masteragentcorrected.py:229-303 | the loop over a file's variables from a given one on, stopping at the first raised error |
| CorrectedAgent.VarsLoopPosts | TESTFILES/masteragentcorrected.py:229-303 | each variable costs at most four POSTs |
| CorrectedAgent.FileRows | TESTFILES/masteragentcorrected.py:211-303 | a file processed from no rows gives exactly one row per variable, for that file, in order |
| CorrectedAgent.GatedVarsAreFree | TESTFILES/masteragentcorrected.py:231-240 | a file of gated variables makes no request and no sleep and cannot fail |
| CorrectedAgent.VarsLoopFailsOnlyOnError | TESTFILES/masteragentcorrected.py:229-303 | the loop fails only on a variable whose own handling raised |
| CorrectedAgent.FilesLoopRows | TESTFILES/masteragentcorrected.py:211-303 | a completed run writes one row per variable of every file, after the rows it started with |
| CorrectedAgent.FilesLoop | TESTFILES/masteragentcorrected.py:211-303 | the loop over the files from a given one on, each file's variables in order, stopping at the first raised error |
| CorrectedAgent.EvalFile | TESTFILES/masteragentcorrected.py:229-303 | the loop over a file's variables appends exactly the rows of `StepAll` over them (one row per variable, in order, stopping at the first error) |
| CorrectedAgent.RunEval | TESTFILES/masteragentcorrected.py:202-309 | the loop over the files gives exactly the outcome of `FilesLoop` (one row per variable of every file, in file order); an error ends it before anything is written |
| OnlineClients.EvalEmbedOutcome | TESTFILES/masteragentcorrected.py:45-61 | the evaluation agents' embedding loop (also `TESTFILES/slowermasteragent.py` lines 43-60) makes at most two POSTs; the vector is the body of the first 200, and without one it is the zero vector after both attempts |
| OnlineClients.EvalEmbedLoop | TESTFILES/masteragentcorrected.py:45-61 | the evaluation agents' embedding loop: a 200 returns the vector, a 429 sleeps 8 s, a network error 5 s, any other status retries at once, and the zero vector follows the last attempt |
| OnlineClients.EvalEmbedNoSleepOnOtherStatus | TESTFILES/masteragentcorrected.py:56-57 | a status other than 200 and 429 is retried without a sleep: such a service yields the zero vector with no sleep at all |
| OnlineClients.EvalEmbedSleeps | TESTFILES/masteragentcorrected.py:52-60 | every sleep of the embedding loop is the 8 s rate-limit backoff or the 5 s network pause, at most one per attempt |
| OnlineClients.EmbedForEval | TESTFILES/masteragentcorrected.py:45-61 | the attempt loop ends with the vector, POST count and sleeps of `EvalEmbedLoop`, whose bounds and fallbacks are the lemmas above |
| OnlineClients.Declined | TESTFILES/masteragentcorrected.py:114 | a declined verdict names the variable, no match, confidence 0.0 and the reason given |
| OnlineClients.OriginalOf | TESTFILES/masteragentcorrected.py:92-93 | the `original` field is the variable's name, or null exactly for a variable without one |
| OnlineClients.ReasonAnswer | TESTFILES/masteragentcorrected.py:100-121 | an answer other than 429 ends the call: a network error raises (the POST is outside the `try`), another non-200 declines with "API <code>", a 200 returns the parsed brace slice as it stands or declines with "parse error" |
| OnlineClients.EvalReasonOutcome | TESTFILES/masteragentcorrected.py:99-122 | the chat loop makes at most two POSTs and sleeps 8 s after each 429 and after nothing else; the first answer other than 429 decides the call, and 429 to every attempt gives the "max retries" verdict (`TESTFILES/slowermasteragent.py` lines 98-122 give "max retries exceeded") |
| OnlineClients.EvalReasonLoop | TESTFILES/masteragentcorrected.py:99-122 | the evaluation agents' chat loop: a 429 sleeps 8 s and retries, any other answer ends the call |
| OnlineClients.ReasonForEval | TESTFILES/masteragentcorrected.py:76-122 | the attempt loop ends with the verdict, POST count and sleeps of `EvalReasonLoop`, whose bounds and fallbacks are the lemmas above |
| OnlineClients.PatientEmbedOutcome | TESTFILES/masteragent.py:83-99 | the first pipelines' embedding loop (also `TESTFILES/AGENT1.py` lines 33-56) makes at most `retries` POSTs; the vector is the body of the first 200, else the 3072-long zero vector after all of them; it sleeps once between two POSTs and never after the last |
| OnlineClients.PatientEmbedLoop | TESTFILES/masteragent.py:83-99 | the first pipelines' embedding loop: every failure retries after a fixed sleep between attempts, and the zero vector follows the last attempt |
| OnlineClients.EmbedPatiently | TESTFILES/masteragent.py:83-99 | the attempt loop ends with the vector, POST count and sleeps of `PatientEmbedLoop`: at most `retries` POSTs, no sleep after the last, a zero vector on exhaustion |
| EvalRows.BaseQuery | TESTFILES/masteragentcorrected.py:242 | the query is `Variable '` + the printed name + `' from OEM dataset`, 28 characters longer than the name |
| EvalRows.QueryDeterminesName | TESTFILES/masteragentcorrected.py:242 | the query names its variable: equal queries come from names that print the same |
| EvalRows.BestMatchCell | TESTFILES/masteragentcorrected.py:298 | the best_match cell is "" for an absent key, None exactly for a null, and the text otherwise |
| EvalRows.ReasonCell | TESTFILES/masteragentcorrected.py:300 | the reason cell is "" for an absent key, None exactly for a null, and the text otherwise |
| EvalRows.ConfidenceCell | TESTFILES/masteragentcorrected.py:299 | the confidence is 0.0 for an absent key and the number otherwise; `float(None)` raises exactly for a null |
| EvalRows.RowFromVerdict | TESTFILES/masteragentcorrected.py:295-301 | the row carries the file, the variable's name and the verdict's three cells read with their defaults; it fails exactly on a null confidence |
| EvalRows.Then | TESTFILES/masteragentcorrected.py:295-303 | handling a variable appends its row and adds its POSTs to the run |
| EvalRows.StepAllNext | TESTFILES/masteragentcorrected.py:229-303 | one turn of a variable loop either raises, ending the run, or appends the variable's step and goes on with the next variable |
| EvalRows.StepAllRows | TESTFILES/masteragentcorrected.py:229-303 | a completed loop appends one row per variable, in order, after the rows before, and each row keeps every fact its own step guarantees |
| EvalRows.StepAllLength | TESTFILES/masteragentcorrected.py:229-303 | a completed loop appends exactly one row per variable |
| EvalRows.StepAllPosts | TESTFILES/masteragentcorrected.py:229-303 | when no variable makes more than a bound of POSTs, the loop makes at most that bound per variable |
| EvalRows.StepAllFree | TESTFILES/masteragentcorrected.py:231-240 | variables that make no request and no sleep leave the count and the sleeps alone, and the loop completes |
| EvalRows.StepAllFailsOnlyOnError | TESTFILES/masteragentcorrected.py:229-303 | the loop stops early only at a variable whose handling raised |
| EvalRows.OneBucket | TESTFILES/masteragentcorrected.py:315-317 | every confidence meets exactly one of the three summary conditions (`>= 0.7`, `0.4 <= c < 0.7`, `< 0.4`) |
| EvalRows.CountIn | TESTFILES/masteragentcorrected.py:315-317 | a summary count never exceeds the number of rows |
| EvalRows.SummaryAddsUp | TESTFILES/masteragentcorrected.py:314-317 | the high, low and no-match counts add up to the total |
| EvalRows.ZeroRowsCountAsNoMatch | TESTFILES/masteragentcorrected.py:315-317 | rows of confidence 0.0, as every gated or declined row is, all count as no match |
| EvalRows.Summarize | TESTFILES/masteragentcorrected.py:313-321 | the printed total is the number of rows and equals the sum of the three counts |
| SlowerAgent.Ask | TESTFILES/slowermasteragent.py:151-156 | every variable's query is embedded with one or two POSTs, its raw scores ranked top-5, and the LLM asked with one or two POSTs |
| SlowerAgent.SlowStep | TESTFILES/slowermasteragent.py:150-168 | the loop body's row is for the variable's file and name and costs two to four POSTs |
| SlowerAgent.StepOf | TESTFILES/slowermasteragent.py:156-168 | once both services answered, the row is for the variable and the POSTs are the two calls' POSTs |
| SlowerAgent.SlowStepOutcome | TESTFILES/slowermasteragent.py:156-167 | the body raises exactly when the LLM call raised, the confidence is null, or the verdict lacks a key the progress line prints; otherwise its row is the verdict's row |
| SlowerAgent.DeclinedRowsAreNoMatch | TESTFILES/slowermasteragent.py:113-122 | a verdict the agent wrote itself never stops the run and gives a no-match row of confidence 0.0 with its reason |
| SlowerAgent.AskFor | TESTFILES/slowermasteragent.py:151-156 | embedding the query, ranking and one LLM request give what `Ask` defines: the variable's query, between one and two POSTs per service, scores parallel to the index and a top-5 ranking of them |
| SlowerAgent.EveryVariableIsAsked | TESTFILES/slowermasteragent.py:150-168 | without a gate, a completed file loop has one row per variable in order, for that file, and made at least two POSTs for each |
| SlowerAgent.AtLeastTwoEach | TESTFILES/slowermasteragent.py:150-168 | every completed variable made at least two POSTs |
| SlowerAgent.CsvHoldsWholeFiles | TESTFILES/slowermasteragent.py:135-176 | the result file always holds whole files' rows: all of them after a completed run, and after an exception the rows of the files before the failing one, or nothing written if the first file failed |
| SlowerAgent.FilesLoop | TESTFILES/slowermasteragent.py:135-176 | the loop over the files from a given one on, rewriting the result file with all rows so far after each completed file |
| SlowerAgent.EvalVariable | TESTFILES/slowermasteragent.py:150-168 | the per-variable statements (retrieval and one LLM request, no gating) give exactly the outcome the function `SlowStep` defines |
| SlowerAgent.Finish | TESTFILES/slowermasteragent.py:159-168 | after both calls, the row is the one `StepOf` defines: for this file and variable, counting the POSTs of both calls |
| SlowerAgent.EvalFile | TESTFILES/slowermasteragent.py:150-168 | the loop over a file's variables appends exactly the rows of `StepAll` over them (one row per variable, in order, stopping at the first error) |
| SlowerAgent.RunEval | TESTFILES/slowermasteragent.py:126-176 | the loop over the files gives exactly the outcome of `FilesLoop` and leaves in the result file the rows of all files completed so far, since the CSV is rewritten after every file |
| MasterAgent.WithDefaults | TESTFILES/masteragent.py:199-202 | `setdefault` fills an absent key with the variable's name (null without one), "", 0.0 or "", and keeps every key the LLM wrote, even a null one; afterwards all four keys are present |
| MasterAgent.CompleteUnchanged | TESTFILES/masteragent.py:199-202 | an answer that already has all four keys passes unchanged |
| MasterAgent.DefaultsIdempotent | TESTFILES/masteragent.py:199-202 | filling in the defaults twice is filling them in once |
| MasterAgent.ReasonBestMatch | TESTFILES/masteragent.py:188-206 | a network error raises (the POST is outside the `try`); a non-200 declines with the status and the first 200 characters of the raw text; a 200 gives the parsed brace slice of the stripped content completed with the defaults, or declines with the parse error and the first 200 characters of the content; a 200 without a content text raises from the `except` block; any answer has all four keys |
| MasterAgent.NoBraceDeclines | TESTFILES/masteragent.py:195-206 | content without a closing brace is declined, keeping the variable's name, with no match and confidence 0.0 |
| MasterAgent.MapUntilErr | TESTFILES/masteragent.py:265-285 | a loop that finishes has one result per item |
| MasterAgent.MapUntilErrAt | TESTFILES/masteragent.py:265-285 | item i of a finished loop is the body's result for item i |
| MasterAgent.MapUntilErrFails | TESTFILES/masteragent.py:265-285 | a loop raises exactly when some item raises, and then with the exception of the first such item |
| MasterAgent.MapUntilErrPrefix | TESTFILES/masteragent.py:265-285 | once a prefix of the items has raised, the whole loop raises the same exception |
| MasterAgent.TopCount | TESTFILES/masteragent.py:269 | `[:top_k]` keeps min(top_k, n) indices for a non-negative top_k and all but the last -top_k for a negative one |
| MasterAgent.TopEntryFacts | TESTFILES/masteragent.py:265-272 | a variable's entry carries its name, its query and the top_k best candidates, best first, each an entry of the index; the body raises exactly when `[:top_k]` keeps nothing |
| MasterAgent.TopEntryFor | TESTFILES/masteragent.py:265-272 | the retrieval loop body for one variable: its query, its top_k candidates, and the `IndexError` when none is kept |
| MasterAgent.TopStep | TESTFILES/masteragent.py:265-272 | the retrieval loop body is defined for every variable and is the entry of that variable |
| MasterAgent.MappingFor | TESTFILES/masteragent.py:281-285 | a mapping is the completed answer for the entry, and the body raises exactly when that answer raised or has a null confidence (which the `:.2f` progress line cannot format) |
| MasterAgent.MappingStep | TESTFILES/masteragent.py:281-285 | the reasoning loop body is the mapping of each entry |
| MasterAgent.RetrievalRaisesOnlyWithoutCandidates | TESTFILES/masteragent.py:264-276 | the retrieval loop raises, before the top matches are written, exactly when there is a variable and `[:top_k]` keeps no candidate |
| MasterAgent.TopsInOrder | TESTFILES/masteragent.py:264-276 | entry i of the top matches file belongs to variable i: its name, its query and its top_k candidates |
| MasterAgent.MappingsInOrder | TESTFILES/masteragent.py:280-289 | when the pipeline gets through, mapping i is the completed LLM answer for variable i with a numeric confidence |
| MasterAgent.CsvRow | TESTFILES/masteragent.py:295-296 | the CSV row has all four columns, uses "" for an absent original, and is the mapping itself when the mapping is complete |
| MasterAgent.CsvMatchesMappings | TESTFILES/masteragent.py:291-296 | every mapping is complete, so the CSV summary holds the mappings exactly and its defaults are never used |
| MasterAgent.TopEntryStep | TESTFILES/masteragent.py:266-272 | one iteration of the retrieval loop yields the top entry of that variable, or its exception |
| MasterAgent.RetrieveLoop | TESTFILES/masteragent.py:264-272 | the retrieval loop yields one top entry per variable, in order, or stops at the first exception (`MapUntilErr`, whose properties are the lemmas above) |
| MasterAgent.MappingLoop | TESTFILES/masteragent.py:280-285 | the reasoning loop yields one mapping per top entry, in order, or stops at the first exception |
| MasterAgent.RunPipeline | TESTFILES/masteragent.py:243-297 | `run_pipeline` after extraction yields the outcome `Pipeline` defines: the retrieval loop, then the reasoning loop only when retrieval finished |
| MasterAgent.Pipeline | TESTFILES/masteragent.py:243-297 | `run_pipeline`: the retrieval loop over the variables, then the reasoning loop over the entries only when retrieval finished |
| TopMatches.Retrieve | TESTFILES/masteragent.py:266-270 | retrieval (also `TESTFILES/AGENT1.py` lines 91-103) embeds the query with one to three POSTs, scores every index entry, ranks them top-k, and lists min(k, n) candidates best first, each pairing an id with its score and the text stored beside it |
| TopMatches.RetrieveFor | TESTFILES/masteragent.py:266-270 | embedding and ranking give what `Retrieve` defines: at most the configured POSTs, scores parallel to the index, and min(k, n) matches in non-increasing similarity |
| TopMatches.UnreachableEmbedding | TESTFILES/masteragent.py:83-99 | an embedding service that never answers 200 costs three POSTs and two five-second sleeps, and the query is scored as the zero vector |
| QudtLabels.TableKeys | TESTFILES/masteragent.py:60-73 | the label table lists the unit CURIEs in the dict's order |
| QudtLabels.FirstKey | TESTFILES/masteragent.py:75-77 | the lookup stops at the first key, in table order, that occurs in the text, and no earlier key occurs |
| QudtLabels.QudtUriToLabel | TESTFILES/masteragent.py:54-81 | an empty text gives ""; otherwise the label of the first key occurring in the text; otherwise the last fragment of the stripped text: a suffix holding no `#` and no `/`, preceded by one of them unless it is the whole stripped text |
| QudtLabels.LabelFrom | TESTFILES/masteragent.py:54-81 | under any table of keys and labels: "" for an empty text, the label of the first key in table order that occurs in the text, else the last `#`- or `/`-separated fragment of the stripped text, preceded by a separator unless it is the whole text |
| QudtLabels.LabelOfFirstHit | TESTFILES/masteragent.py:75-77 | a text whose first occurring key is key j gets label j |
| QudtLabels.KiloNewtonMetreLabel | TESTFILES/masteragent.py:64-65 | `unit:KiloN-M` is labelled kilonewton-metres, not kilonewtons, because its key comes first |
| QudtLabels.MillimetresReadAsMetres | TESTFILES/masteragent.py:69-70 | `unit:MM` is labelled "meters (m)": `unit:M` occurs in it and is tried first |
| QudtLabels.NoCurieGivesFragment | TESTFILES/masteragent.py:78-81 | every key is a `unit:` CURIE, so a text without `unit:` gets its last path fragment |
| QudtLabels.KeysAreCuries | TESTFILES/masteragent.py:60-73 | every key of the table starts with `unit:` |
| QudtLabels.FragmentAfterSlash | TESTFILES/masteragent.py:79-80 | the last fragment of a path whose last separator is a `/` is the text after it |
| QudtLabels.FullUriLabel | TESTFILES/masteragent.py:54-81 | the full QUDT URI of the kilowatt is labelled `KiloW`, not "kilowatts (kW)" |
| QueryText.OrEmpty | TESTFILES/masteragent.py:110-113 | `x or ""` is "" exactly for None or "" and the text otherwise |
| QueryText.Fired | TESTFILES/masteragent.py:118-131 | the fired hint rules are listed in the order they are tried, each fired, and every rule that fires is listed |
| QueryText.Fields | TESTFILES/masteragent.py:110-133 | a missing name, context or datatype reads as "", a missing value as "unknown", a unit without a label as "unspecified"; the hints are those of the name |
| QueryText.Render | TESTFILES/masteragent.py:135-144 | the query starts with the preamble, the quoted name and the unit, and ends with the observed value, the hints and the instruction |
| QueryText.BuildQueryText | TESTFILES/masteragent.py:108-144 | `build_query_text`: the fields read from the variable, rendered by the template |
| QueryText.NoRuleForEmpty | TESTFILES/masteragent.py:119-131 | no hint rule fires on an empty name |
| QueryText.NamelessVariableHasNoHints | TESTFILES/masteragent.py:110-133 | a variable without a name gets no hint |
| QueryText.PmeFiresNoOtherRule | TESTFILES/masteragent.py:121-130 | none of the rotational-speed, torque, bollard, sea-chest and yield-strength rules fires for "p_me" |
| QueryText.PowerHintForPme | TESTFILES/masteragent.py:119-133 | "P_ME" gets exactly the power hint |
| QueryText.UnderscoreHidesPower | TESTFILES/masteragent.py:120 | `_` is a word character, so "eng_p" does not fire the power rule |
| AgentOne.Shown | TESTFILES/AGENT1.py:81-87 | a field prints as "" when absent, `None` when null and as its text otherwise |
| AgentOne.QueryText | TESTFILES/AGENT1.py:87 | the query starts with `Variable: <name>. Unit: <unit>. ` and ends with `. Value: <value>.` |
| AgentOne.OriginalVariable | TESTFILES/AGENT1.py:105-109 | the original variable is None exactly for a null name, else the printed name |
| AgentOne.MatchForFacts | TESTFILES/AGENT1.py:80-109 | a variable's entry carries its name and query and min(5, n) candidates, best first, each an entry of the index |
| AgentOne.MatchStep | TESTFILES/AGENT1.py:80-109 | the loop body is defined for every variable and is its entry |
| AgentOne.MapAll | TESTFILES/AGENT1.py:78-109 | the loop gives one entry per variable |
| AgentOne.RetrieverInOrder | TESTFILES/AGENT1.py:78-109 | entry i of the output is the entry of variable i |
| AgentOne.MatchVariable | TESTFILES/AGENT1.py:81-109 | one iteration yields the match entry of that variable: its name, its query text and its top matches |
| AgentOne.MatchLoop | TESTFILES/AGENT1.py:78-109 | the loop yields exactly one entry per variable, in input order |
| AgentOne.RunRetriever | TESTFILES/AGENT1.py:69-114 | `main` writes exactly the entries of the variables in file order |
| Retrieval.TopIndices | TESTFILES/ECMSPIPELINE/masteragent_ecms.py:293 | the ranking `np.argsort(sims)[::-1][:k]` is min(k, n) distinct in-range indices, best first, and no index left out scores above a chosen one |
| Retrieval.Select | TESTFILES/ECMSPIPELINE/masteragent_ecms.py:293 | repeatedly taking the best remaining candidate gives min(k, n) distinct candidates, ordered by score, that beat every candidate left out |
| Retrieval.ArgMax | TESTFILES/ECMSPIPELINE/masteragent_ecms.py:293 | the chosen candidate scores at least every other candidate |
| Retrieval.TopIsMax | TESTFILES/ECMSPIPELINE/masteragent_ecms.py:293-294 | the first entry of a ranking carries the largest score of all |
| Retrieval.RankScoresAgree | TESTFILES/ECMSPIPELINE/masteragent_ecms.py:293-296 | two rankings of the same scores agree on the score at every rank, however ties are ordered |
| Retrieval.RankNotBelow | TESTFILES/ECMSPIPELINE/masteragent_ecms.py:293 | rank r of one ranking scores at least rank r of any other ranking of the same scores |
| Retrieval.Candidates | TESTFILES/ECMSPIPELINE/masteragent_ecms.py:298 | candidate j pairs the id, the score and the text of the j-th chosen index |
| Retrieval.RankedCandidates | TESTFILES/AGENT1.py:95-103 | the candidate list of a top-k ranking has at most k entries, best first, each pairing the id and text stored at one index entry |
| Clients.Zeros | TESTFILES/ECMSPIPELINE/masteragent_ecms.py:133 | the fallback vector has the index dimension and only zeros |
| Clients.Fallback | TESTFILES/ECMSPIPELINE/masteragent_ecms.py:178 | the verdict dict the client writes itself has no `original` key and carries the match, confidence and reason given |
| Clients.JsonSlice | TESTFILES/ECMSPIPELINE/masteragent_ecms.py:174-176 | with a `{` before the last `}`, the slice runs from the first `{` to the last `}` inclusive; it is never longer than the reply |
| Clients.NoClosingBraceEmptySlice | TESTFILES/ECMSPIPELINE/masteragent_ecms.py:174 | without a closing brace the slice is empty, whatever `find("{")` gives, -1 included |
| EvalResults.StripKeepsSuffixed | TESTFILES/eval_results.py:18-19 | stripping leaves alone a trimmed name followed by a suffix with non-blank ends, so the `.ttl` pattern still sees the suffix |
| EvalResults.TtlSuffixDropped | TESTFILES/eval_results.py:18-19 | a trimmed file name ending in ".ttl" gets the lower-cased name without the suffix as its join key |
| EvalResults.FileKey | TESTFILES/eval_results.py:18-19 | the join key of a file cell: stripped text without a final ".ttl", then lower-cased |
| EvalResults.UpperTtlKept | TESTFILES/eval_results.py:18-19 | the suffix pattern is applied before lower-casing, so a name ending in ".TTL" keeps all four suffix characters in its key |
| EvalResults.TtlSpellingsJoin | TESTFILES/eval_results.py:18-19 | a file written with ".ttl" in one table and without it in the other gets one key, so the two rows can join |
| EvalResults.MatchesOf | TESTFILES/eval_results.py:32-38 | the mapping rows a prediction joins are exactly those with its normalised file and variable keys, never more than the mapping has |
| EvalResults.RowsFor | TESTFILES/eval_results.py:32-38 | a left join keeps one row per joining mapping row, each carrying the prediction's columns and that row's id and domain; a prediction with no partner keeps one row with no canonical id and an empty domain |
| EvalResults.RowsForOrigin | TESTFILES/eval_results.py:32-38 | a joined row lacks a canonical id exactly when no mapping row joins its prediction, and otherwise takes its id and domain from one that does |
| EvalResults.LeftMerge | TESTFILES/eval_results.py:32-38 | the joined table has at least one row per prediction, and every joined row carries the columns of some prediction |
| EvalResults.NoJoinNoMatch | TESTFILES/eval_results.py:32-38 | a prediction that no mapping row joins has no matches |
| EvalResults.NoSecondMatch | TESTFILES/eval_results.py:32-38 | when the mapping keys are distinct, no row after the first joining row joins the same prediction |
| EvalResults.AtMostOneMatch | TESTFILES/eval_results.py:32-38 | with distinct mapping keys a prediction joins at most one mapping row |
| EvalResults.DistinctKeysKeepRows | TESTFILES/eval_results.py:32-38 | with distinct mapping keys the left join has exactly one row per prediction, so the totals count predictions |
| EvalResults.CellOf | TESTFILES/eval_results.py:46-49 | every joined row satisfies exactly one of the four masks TP, FP, FN and TN (a row with no mapping partner counts as FP or FN) |
| EvalResults.InCell | TESTFILES/eval_results.py:46-49 | the four masks TP, FP, FN and TN of a joined row, with a missing canonical id unequal to every text |
| EvalResults.CountsPartition | TESTFILES/eval_results.py:46-52 | the four confusion counts add up to the rows; the correct rows are TP plus TN; the rows with a prediction are TP plus FP; TN never exceeds the out-of-domain rows |
| EvalResults.Share | TESTFILES/eval_results.py:53-55 | a guarded ratio is 0 for an empty whole, is a proportion when the part lies within the whole, and multiplied by a non-empty whole gives back the part |
| EvalResults.Summarize | TESTFILES/eval_results.py:46-78 | the report's total is the number of rows, the four counts add up to it, the correct count is TP plus TN, and the out-of-domain correct count is TN within the out-of-domain total |
| EvalResults.SummaryInUnit | TESTFILES/eval_results.py:53-78 | accuracy, precision, recall, F1 and out-of-domain accuracy lie in [0, 1]; coverage and abstention exist exactly for a non-empty table and then add up to 1 |
| EvalResults.ExtractDomain | TESTFILES/eval_results.py:91-102 | an empty id is "no_domain"; an id with ':' gives the text before the first ':'; otherwise a known prefix before the first '_' is the domain, and anything else is "unknown" |
| EvalResults.DomainOf | TESTFILES/eval_results.py:104-105 | an empty domain cell is "unknown"; any other cell gets its extracted domain |
| EvalResults.UnmatchedIsUnknown | TESTFILES/eval_results.py:104-105 | a prediction that joins no mapping row keeps one row, and that row falls in the "unknown" domain, not in "no_domain" |
| EvalResults.PrefixDomainExample | TESTFILES/eval_results.py:97-101 | "prop_Thruster" is in the "prop" domain |
| EvalResults.CurieDomainExample | TESTFILES/eval_results.py:95-96 | "eng:Power" is in the "eng" domain |
| EvalResults.TrueLabel | TESTFILES/eval_results.py:160-163 | the true label is "no_match" for an empty canonical id, "nan" for a row no mapping row joined, and the id otherwise |
| EvalResults.PredLabel | TESTFILES/eval_results.py:161-164 | the predicted label is never empty, and it is the prediction itself whenever there is one |
| EvalResults.LabelPool | TESTFILES/eval_results.py:166 | the label pool holds exactly the true and predicted labels of the rows |
| EvalResults.Insert | TESTFILES/eval_results.py:166 | inserting into an increasing list gives an increasing list holding the old labels and the new one |
| EvalResults.SortedSet | TESTFILES/eval_results.py:166 | `sorted(set(...))` gives an increasing list with exactly the given labels |
| EvalResults.ConfusionLabels | TESTFILES/eval_results.py:166-168 | the matrix labels are exactly the pool; "no_match", when present, is last and only there, and the labels before it are increasing |
| EvalResults.ConfusionLabelsDistinct | TESTFILES/eval_results.py:166-168 | no label of the confusion matrix is repeated |
| EvalResults.StrLtTransitive | TESTFILES/eval_results.py:166 | Python's string order is transitive |
| EvalResults.StrLtTotal | TESTFILES/eval_results.py:166 | any two different strings are ordered one way or the other |
| EcmsEval.CellText | TESTFILES/ECMSPIPELINE/eval_results_ecms.py:38-40 | a cell read as text is its own text, and an empty cell reads as "nan" |
| EcmsEval.CleanMatch | TESTFILES/ECMSPIPELINE/eval_results_ecms.py:43-49 | a cleaned match is never "nan" or "None": a blank cell becomes "", those two spellings become "", and any other cell is its stripped text |
| EcmsEval.ToDict | TESTFILES/ECMSPIPELINE/eval_results_ecms.py:71-75 | the dictionary built from pairs has exactly the keys of the pairs |
| EcmsEval.LastPairWins | TESTFILES/ECMSPIPELINE/eval_results_ecms.py:71-75 | a key repeated in the pairs keeps the value of its last pair |
| EcmsEval.GroundTruth | TESTFILES/ECMSPIPELINE/eval_results_ecms.py:61-75 | the ground-truth map has exactly the stripped names of the sheet's rows as keys |
| EcmsEval.LastRowWins | TESTFILES/ECMSPIPELINE/eval_results_ecms.py:61-75 | a name takes the cleaned correct match of its last row in the sheet |
| EcmsEval.Attach | TESTFILES/ECMSPIPELINE/eval_results_ecms.py:79 | a result row keeps its stripped name, status and cleaned match, and takes the ground truth of its name, or "" when the name is missing from the ground truth |
| EcmsEval.AttachAll | TESTFILES/ECMSPIPELINE/eval_results_ecms.py:79-85 | attaching the ground truth keeps the rows and their order |
| EcmsEval.PositiveMeaning | TESTFILES/ECMSPIPELINE/eval_results_ecms.py:80-100 | a row is an actual positive exactly when its truth is non-empty and not DONTEXIST in any letter case; a correct prediction needs an actual positive; an empty truth is neither |
| EcmsEval.ShouldAccept | TESTFILES/ECMSPIPELINE/eval_results_ecms.py:98-100 | a row should be accepted exactly when its ground truth is an actual positive |
| EcmsEval.LowerCaseDontExist | TESTFILES/ECMSPIPELINE/eval_results_ecms.py:83 | a truth written "dontexist" in lower case still counts as DONTEXIST |
| EcmsEval.ClassifyAuto | TESTFILES/ECMSPIPELINE/eval_results_ecms.py:135-152 | only ACCEPT and NO_MATCH rows are classified: an ACCEPT is TP exactly when it is correct and FP otherwise; a NO_MATCH is FN exactly when a real mapping exists and TN otherwise |
| EcmsEval.SplitsWithinBuckets | TESTFILES/ECMSPIPELINE/eval_results_ecms.py:103-120 | the correct accepts never exceed the ACCEPT bucket, and the should-accept rows of a bucket never exceed the bucket, so the "wrong" and "should reject" counts are never negative |
| EcmsEval.ConfusionMatchesSplits | TESTFILES/ECMSPIPELINE/eval_results_ecms.py:103-160 | TP equals the correct accepts, TP plus FP is the ACCEPT bucket, FN equals the NO_MATCH rows that should have been accepted, and FN plus TN is the NO_MATCH bucket |
| EcmsEval.CountConfusion | TESTFILES/ECMSPIPELINE/eval_results_ecms.py:155-160 | the number of rows that the automatic classification puts in a given confusion cell |
| EcmsEval.BucketsWithinRows | TESTFILES/ECMSPIPELINE/eval_results_ecms.py:123-126 | the ACCEPT, HUMAN_REVIEW and NO_MATCH buckets together never exceed the rows |
| EcmsEval.SafeDiv | TESTFILES/ECMSPIPELINE/eval_results_ecms.py:163-164 | a guarded division is 0 for a zero denominator and otherwise times the denominator gives back the numerator |
| EcmsEval.RatioInUnit | TESTFILES/ECMSPIPELINE/eval_results_ecms.py:163-164 | a part over its whole is a proportion |
| EcmsEval.F1InUnit | TESTFILES/ECMSPIPELINE/eval_results_ecms.py:168 | the harmonic mean of two proportions is a proportion |
| EcmsEval.AutoMetrics | TESTFILES/ECMSPIPELINE/eval_results_ecms.py:166-174 | precision, recall, accuracy, specificity and NPV are the guarded ratios of the confusion counts, balanced accuracy is the mean of recall and specificity, and F1 is the harmonic mean of precision and recall |
| EcmsEval.MetricsInUnit | TESTFILES/ECMSPIPELINE/eval_results_ecms.py:166-174 | every automatic metric is a proportion |
| EcmsEval.Percentages | TESTFILES/ECMSPIPELINE/eval_results_ecms.py:274-275 | the bar heights are each part as a percentage of its bucket, and both are 0 for an empty bucket |
| EcmsEval.BarsFillBucket | TESTFILES/ECMSPIPELINE/eval_results_ecms.py:274-281 | the two stacked bars of a non-empty bucket reach exactly 100 percent |
| EcmsEval.Missing | TESTFILES/ECMSPIPELINE/eval_results_ecms.py:87 | the missing list holds exactly the names of the rows without ground truth |
| EcmsEval.ReportConsistent | TESTFILES/ECMSPIPELINE/eval_results_ecms.py:103-174 | the report counts every results row; each bucket splits into its two non-negative parts; the confusion matrix reproduces the ACCEPT and NO_MATCH splits; the buckets fit in the rows; every metric is a proportion |
| EcmsEval.Evaluate | TESTFILES/ECMSPIPELINE/eval_results_ecms.py:103-174 | the whole evaluation: ground truth attached, status buckets and their splits, the automatic confusion matrix, the missing names and the metrics |
| FilterTrash.NormFile | TESTFILES/ECMSPIPELINE/filter_trashdata.py:19-23 | a blank cell has the empty key; otherwise the key is the stripped, lower-cased text, without a final ".ttl" when it has one |
| FilterTrash.NormName | TESTFILES/ECMSPIPELINE/filter_trashdata.py:25-26 | a blank cell has the empty key; otherwise the key is the stripped, lower-cased text |
| FilterTrash.LowerConcat | TESTFILES/ECMSPIPELINE/filter_trashdata.py:20 | lower-casing distributes over concatenation |
| FilterTrash.UpperTtlDropped | TESTFILES/ECMSPIPELINE/filter_trashdata.py:19-23 | lower-casing comes before the suffix test here, so a name ending in ".TTL" loses the suffix too |
| FilterTrash.LastIndexOf | TESTFILES/ECMSPIPELINE/filter_trashdata.py:29 | the position found is that of the last occurrence of the key, and none exists exactly when the key is absent |
| FilterTrash.LowerAll | TESTFILES/ECMSPIPELINE/filter_trashdata.py:29 | the lower-cased column names, position by position |
| FilterTrash.FindCol | TESTFILES/ECMSPIPELINE/filter_trashdata.py:28-33 | no column is found exactly when no candidate matches a column name in any letter case; a found column is a real column |
| FilterTrash.FirstCandidateWins | TESTFILES/ECMSPIPELINE/filter_trashdata.py:28-33 | the first candidate present picks the column, and among columns equal up to case the last one wins, as in the dictionary the source builds |
| FilterTrash.ColumnIndex | TESTFILES/ECMSPIPELINE/filter_trashdata.py:50-54 | a column is found by its exact name, and exactly when it exists |
| FilterTrash.RowContainsNotFound | TESTFILES/ECMSPIPELINE/filter_trashdata.py:35-42 | a row is flagged exactly when some non-blank cell, lower-cased, contains "not found in standard" |
| FilterTrash.Flagged | TESTFILES/ECMSPIPELINE/filter_trashdata.py:74-75 | the flagged rows are exactly the rows of the sheet that contain the phrase |
| FilterTrash.RowKey | TESTFILES/ECMSPIPELINE/filter_trashdata.py:87-100 | a flagged row gives a (file, variable) pair when the sheet has a file column and both keys are non-empty, a variable-only key when only the variable is non-empty, and nothing when the variable is empty |
| FilterTrash.RowKeys | TESTFILES/ECMSPIPELINE/filter_trashdata.py:91-100 | the keys of the flagged rows, row by row |
| FilterTrash.KeySetsMembers | TESTFILES/ECMSPIPELINE/filter_trashdata.py:91-100 | the pair set and the variable set hold exactly the pair keys and the variable-only keys among the row keys |
| FilterTrash.KeySetsSnoc | TESTFILES/ECMSPIPELINE/filter_trashdata.py:91-95 | one more row adds its key to the set of its kind |
| FilterTrash.KeysOf | TESTFILES/ECMSPIPELINE/filter_trashdata.py:87-100 | the pairs and variables a sheet adds are exactly the pair and variable-only keys of its flagged rows |
| FilterTrash.SheetExclusions | TESTFILES/ECMSPIPELINE/filter_trashdata.py:65-100 | an empty sheet or one without flagged rows adds nothing; a non-empty sheet adds its flagged rows to the count; a sheet without a variable column adds no key; every key gathered has non-empty parts |
| FilterTrash.ExclusionsOf | TESTFILES/ECMSPIPELINE/filter_trashdata.py:60-100 | after all sheets, every pair key and variable key has non-empty parts |
| FilterTrash.FlaggedRowsCounted | TESTFILES/ECMSPIPELINE/filter_trashdata.py:63-79 | the count reported is the number of flagged rows of the non-empty sheets |
| FilterTrash.CollectExclusions | TESTFILES/ECMSPIPELINE/filter_trashdata.py:60-100 | the sheet loop gathers exactly the keys and the count of the function `ExclusionsOf` |
| FilterTrash.AddRowKeys | TESTFILES/ECMSPIPELINE/filter_trashdata.py:91-100 | the row loop of a sheet adds exactly the keys of its flagged rows to the sets |
| FilterTrash.AddRowKey | TESTFILES/ECMSPIPELINE/filter_trashdata.py:92-95 | one row adds its pair key to the pairs, its variable-only key to the names, or nothing |
| FilterTrash.Filtered | TESTFILES/ECMSPIPELINE/filter_trashdata.py:115-119 | boolean indexing keeps, in table order, exactly the rows whose mask value is the one asked for, never more rows than the table |
| FilterTrash.FilteredSnoc | TESTFILES/ECMSPIPELINE/filter_trashdata.py:115-119 | one more row at the end of the table is kept at the end of the filtered rows exactly when its mask value is the one asked for |
| FilterTrash.Split | TESTFILES/ECMSPIPELINE/filter_trashdata.py:106-119 | the kept rows are exactly `df[~mask]` and the excluded rows exactly `df[mask]`, each in table order; together they are a permutation of the table, every kept row escapes the exclusion test and every excluded row meets it |
| FilterTrash.NamelessRowKept | TESTFILES/ECMSPIPELINE/filter_trashdata.py:106-110 | a row whose variable key is empty is never excluded, because every key names a variable |
| FilterTrash.NoFileColumnByName | TESTFILES/ECMSPIPELINE/filter_trashdata.py:50-54 | a table without a "file" column is filtered by variable alone, because no pair key has an empty file |
| FilterTrash.SheetMembers | TESTFILES/ECMSPIPELINE/filter_trashdata.py:65-100 | after a sheet, the keys are those gathered before it together with those of its flagged rows |
| FilterTrash.SheetHasKey | TESTFILES/ECMSPIPELINE/filter_trashdata.py:65-100 | a sheet keeps every key gathered before it |
| FilterTrash.KeyKept | TESTFILES/ECMSPIPELINE/filter_trashdata.py:65-100 | the key of a flagged row of any sheet survives the sheets after it |
| FilterTrash.KeyOrigin | TESTFILES/ECMSPIPELINE/filter_trashdata.py:65-100 | every gathered key is the key of a flagged row of some sheet |
| FilterTrash.FlaggedNameExcludes | TESTFILES/ECMSPIPELINE/filter_trashdata.py:106-110 | a table row whose variable is the variable-only key of a flagged row is excluded |
| FilterTrash.FlaggedPairExcludes | TESTFILES/ECMSPIPELINE/filter_trashdata.py:106-110 | a table row whose (file, variable) is the pair key of a flagged row is excluded |
| FilterTrash.ShouldExclude | TESTFILES/ECMSPIPELINE/filter_trashdata.py:106-110 | a row is excluded exactly when its (file, variable) key is a pair key or its variable key is a variable key |
| EmbedOntology.ScalarText | TESTFILES/embed_ontology.py:40 | a string prints as itself and null as "None", as Python's `str` does for loaded JSON scalars |
| EmbedOntology.Flatten | TESTFILES/embed_ontology.py:35-40 | a string flattens to itself, and an empty list or dict flattens to the empty text |
| EmbedOntology.FlattenSingletons | TESTFILES/embed_ontology.py:35-40 | a one-element list flattens to its element, and a one-entry dict to "key: value" |
| EmbedOntology.FlattenListAppend | TESTFILES/embed_ontology.py:38-39 | flattening a list is compositional: two non-empty halves flatten to their texts joined by ", " |
| EmbedOntology.FlattenDictAppend | TESTFILES/embed_ontology.py:36-37 | flattening a dict is compositional: two non-empty halves flatten to their texts joined by "; " |
| EmbedOntology.KeyLinesAppend | TESTFILES/embed_ontology.py:56-61 | the lines of a node are the lines of its entries, in the entries' order |
| EmbedOntology.KeyLineWritten | TESTFILES/embed_ontology.py:56-61 | the line of any entry that writes one is among the node's lines |
| EmbedOntology.KeyLineSource | TESTFILES/embed_ontology.py:56-61 | every line of a node comes from one of its entries |
| EmbedOntology.KeyLinesMembers | TESTFILES/embed_ontology.py:56-61 | a line is written exactly for an entry other than `@id` whose stripped flattened value is non-empty |
| EmbedOntology.KeyLines | TESTFILES/embed_ontology.py:56-61 | the entry lines of a node in key order, never more than its entries |
| EmbedOntology.ChunkTextShape | TESTFILES/embed_ontology.py:55-62 | a chunk's text always starts with "Entity ID: iri."; it is that line alone when no entry writes a line, and otherwise that line, one space, and the entry lines joined by spaces |
| EmbedOntology.ChunkText | TESTFILES/embed_ontology.py:55-62 | the line loop of one node builds the space-joined entity line and entry lines, and its text starts with the entity line |
| EmbedOntology.NodeChunk | TESTFILES/embed_ontology.py:51-63 | a dict node never fails; it gives no chunk without an `@id` and otherwise a chunk whose id is its `@id` value; only a node that is not a dict raises |
| EmbedOntology.ChunksStep | TESTFILES/embed_ontology.py:51-65 | the node loop skips a dict without `@id` and writes the chunk of one with it before those of the later nodes |
| EmbedOntology.IdNodes | TESTFILES/embed_ontology.py:51-53 | the nodes kept are dict nodes of the graph that have an `@id` |
| EmbedOntology.ChunksOfAt | TESTFILES/embed_ontology.py:63 | chunk i of a list of nodes is the chunk of node i |
| EmbedOntology.DictGraphChunks | TESTFILES/embed_ontology.py:51-65 | on a graph of dicts the loop runs to the end and writes the chunks of the nodes with an `@id`, in order |
| EmbedOntology.OneChunkPerIdNode | TESTFILES/embed_ontology.py:51-65 | on a graph of dicts no error is raised and exactly one chunk is written for each node with an `@id`, in graph order |
| EmbedOntology.Chunks | TESTFILES/embed_ontology.py:51-65 | the chunks written for a graph in graph order, and the error that stopped the loop if one did, never more chunks than nodes |
| EmbedOntology.ErrorStopsTheFile | TESTFILES/embed_ontology.py:50-65 | when a node raises, the file holds exactly the chunks of the nodes before the first failing node |
| EmbedOntology.ChunksAt | TESTFILES/embed_ontology.py:51-65 | at node i, an error stops the loop, a node without `@id` is skipped, and a node with one writes its chunk first |
| EmbedOntology.ChunkNode | TESTFILES/embed_ontology.py:52-63 | the loop body on one node gives what the function `NodeChunk` gives |
| EmbedOntology.MakeChunks | TESTFILES/embed_ontology.py:43-66 | the node loop writes exactly the chunks of the function `Chunks`, stops at the same error, and counts the chunks it wrote |
| EmbedOntology.Columns | TESTFILES/embed_ontology.py:81-82 | the ids and texts read back are parallel to the chunks |
| EmbedOntology.Batches | TESTFILES/embed_ontology.py:88-89 | every batch is non-empty and holds at most BATCH_SIZE = 50 texts |
| EmbedOntology.BatchesCover | TESTFILES/embed_ontology.py:88-89 | the batches cover every text exactly once, in order |
| EmbedOntology.BatchCount | TESTFILES/embed_ontology.py:88 | there are ceil(total / 50) batches |
| EmbedOntology.BatchIndex | TESTFILES/embed_ontology.py:88-89 | batch k is the slice `texts[k*50 : k*50 + 50]`, clipped at the end |
| EmbedOntology.BatchExists | TESTFILES/embed_ontology.py:88 | batch k exists exactly when k * 50 is inside the texts |
| EmbedOntology.BatchAt | TESTFILES/embed_ontology.py:88-89 | the batches are the consecutive slices of the texts, ceil(total / 50) of them |
| EmbedOntology.EmbedBatch | TESTFILES/embed_ontology.py:69-74 | a batch succeeds exactly when the reply has status 200, and then it yields the reply's embeddings; any other status raises |
| EmbedOntology.Embedded | TESTFILES/embed_ontology.py:88-93 | the batch loop embeds batches in order; on success every batch was answered; on failure it stops at the first failing batch with one pause per answered batch before it |
| EmbedOntology.EmbeddedStep | TESTFILES/embed_ontology.py:91-93 | an answered batch puts its embeddings before those of the later batches and adds one pause |
| EmbedOntology.EmbeddingsParallel | TESTFILES/embed_ontology.py:88-95 | when each answer holds one embedding per text of its batch, the saved embeddings are parallel to the texts |
| EmbedOntology.EmbeddedAdvance | TESTFILES/embed_ontology.py:91-93 | embedding batch k moves its vectors from the rest of the loop onto the embeddings already in hand |
| EmbedOntology.EmbeddedStops | TESTFILES/embed_ontology.py:72-73 | a failed batch ends the loop with its error and no more pauses |
| EmbedOntology.TakeBatch | TESTFILES/embed_ontology.py:89 | the slice taken at step k is batch k |
| EmbedOntology.EmbedFrom | TESTFILES/embed_ontology.py:88-93 | the batch loop from one batch on, with the embeddings in hand and the pauses made: each answered batch extends the embeddings and adds a pause, and the first failed batch ends it with its error |
| EmbedOntology.EmbedFromEmbedded | TESTFILES/embed_ontology.py:88-93 | the loop from batch k gives the embeddings in hand followed by those `Embedded` gives for the batches from k on, and one more pause per answered batch |
| EmbedOntology.EmbedTexts | TESTFILES/embed_ontology.py:84-93 | the batch loop gives the embeddings, the error and the pause count of the function `Embedded` |
| EmbedOntology.EmbedAll | TESTFILES/embed_ontology.py:77-98 | `embed_all` saves the embeddings of all batches with the ids and texts of the chunks, pausing once per answered batch, and saves nothing when a batch fails |
| JsonValue.Keys | fixer.py:47 | the keys of a dict, one per entry, in insertion order |
| JsonValue.Lookup | ficxer.py:16-19 | `d.get(k)` finds a value exactly when `k` is a key, and the value found is stored under `k` |
| JsonValue.Assign | fixer.py:57 | `d[k] = v` keeps the keys and their order when `k` is present, and otherwise appends `k` at the end |
| JsonValue.AssignLookup | fixer.py:57 | after `d[k] = v`, `d[k]` is `v` and every other key reads as before |
| JsonValue.AssignKeys | fixer.py:57 | after `d[k] = v` the keys are the old ones and `k`, with at most one entry more |
| JsonValue.AssignSame | ficxer.py:17 | assigning a key the value it already holds changes nothing |
| JsonValue.AssignNew | fixer.py:57 | a new key is appended with its value |
| JsonValue.AssignTwice | fixer.py:82 | assigning the same value twice is the same as assigning it once |
| JsonValue.AssignEntries | fixer.py:57 | every entry after `d[k] = v` was there before or is the new one |
| JsonValue.AssignDistinct | fixer.py:57 | assigning keeps the keys of a dict distinct |
| JsonValue.PyIn | ficxer.py:16 | `key in container` raises on a null, boolean or number, and on a dict tests its keys |
| JsonValue.PyIndex | ficxer.py:17 | `container[key]` answers exactly for a dict holding the key |
| Fixer.TableShape | fixer.py:6-38 | every bare name of the id table starts with a capital letter and every CURIE prefix with a small letter |
| Fixer.IdLookup | fixer.py:50-53 | a string is mapped exactly when it is a bare name of the table, and it maps to that name's prefix, a colon and the name |
| Fixer.CurieNotBare | fixer.py:64-65 | a mapped CURIE is not itself a bare name, so it is never mapped again |
| Fixer.RenameKey | fixer.py:40-48 | no renamed key is "prop:hasMember", and every other key is kept |
| Fixer.MapId | fixer.py:64-67 | the mapped value of a string is never a bare name of the table, and a string that is not one is kept |
| Fixer.Transform | fixer.py:44-67 | strings are mapped, other scalars kept, lists transformed element by element with their length, and dicts rebuilt with distinct keys |
| Fixer.EntryValueIsTransform | fixer.py:50-55 | the special `@id` and `@type` branches give what `transform` gives any value |
| Fixer.EntryValue | fixer.py:50-55 | the value stored under a renamed key: a bare name under `@id` or `@type` is mapped, any other value is transformed |
| Fixer.TransformEntries | fixer.py:46-58 | the rebuilt dict has distinct keys |
| Fixer.RenamedKeyList | fixer.py:48 | the renamed key of every entry, in order |
| Fixer.RenamedKeys | fixer.py:46-58 | the keys of the rebuilt dict are exactly the renamed keys |
| Fixer.OldMemberKeyGone | fixer.py:46-58 | "prop:hasMember" is gone from every rebuilt dict |
| Fixer.RenamedCount | fixer.py:46-58 | the rebuilt dict never has more entries than the original |
| Fixer.NoCollisionKeepsCount | fixer.py:46-58 | when no two keys rename to the same key, no entry is lost |
| Fixer.LaterValueWins | fixer.py:46-58 | a key takes the transformed value of the last entry renamed to it, so on a collision the later value wins |
| Fixer.ValuesTransformed | fixer.py:46-58 | every value of the rebuilt dict is the transform of some original value |
| Fixer.FixedEntries | fixer.py:46-58 | a dict with distinct keys, none renamed and all values already fixed, is rebuilt as it was |
| Fixer.TransformIdempotent | fixer.py:44-67 | transforming twice is transforming once |
| Fixer.Run | fixer.py:69-91 | a command line without exactly two arguments exits with code 1, a document without `@graph` exits with code 2, and a document is written only when it has `@graph` |
| Fixer.OnlyGraphRewritten | fixer.py:78-89 | the written document has the input's keys, its `@graph` is the transform of the old one, and every other entry, `@context` among them, is untouched |
| Fixer.RunIdempotent | fixer.py:69-91 | running the script on its own output gives the same output |
| Ficxer.FixRef | ficxer.py:7-13 | an `xsd:` string becomes a reference to itself, a capitalised non-http string a reference under https://example.org/ship/, an empty string raises, and any other string, and any non-string value, is returned unchanged |
| Ficxer.FixRefIdempotent | ficxer.py:7-13 | fixing a fixed reference changes nothing |
| Ficxer.FixKey | ficxer.py:16-19 | a dict without the key is unchanged; with it, the value under the key is replaced by its fixed value and the keys stay the same |
| Ficxer.FixItemOtherKeys | ficxer.py:15-19 | only `rdfs:domain` and `rdfs:range` of an item change, and the keys stay the same |
| Ficxer.FixItem | ficxer.py:15-19 | the loop body for one item: its `rdfs:domain` is fixed, then its `rdfs:range`, and an error in either stops it |
| Ficxer.FixKeySettled | ficxer.py:16-19 | a dict whose value under the key is already fixed is left as it is |
| Ficxer.FixItemIdempotent | ficxer.py:15-19 | an item fixed once is left as it is by a second pass |
| Ficxer.FixGraph | ficxer.py:15-19 | the item loop replaces every item in place by its fixed version; when it reports an error, some item could not be fixed |
| Text.LowerChar | TESTFILES/ECMSPIPELINE/masteragent_ecms.py:78 | lower-casing a character leaves no capital: a capital moves to its small letter and every other character is kept |
| Text.UpperChar | TESTFILES/masteragentcorrected.py:149 | upper-casing a character leaves no small letter: a small letter moves to its capital and every other character is kept |
| Text.Lower | TESTFILES/ECMSPIPELINE/masteragent_ecms.py:78 | `str.lower()` keeps the length and lower-cases every character in place |
| Text.LowerKeepsStripped | TESTFILES/ECMSPIPELINE/masteragent_ecms.py:78 | lower-casing a stripped text leaves it stripped, so the order of strip and lower does not matter |
| Text.LowerIdempotent | TESTFILES/ECMSPIPELINE/masteragent_ecms.py:77-78 | lower-casing twice is lower-casing once |
| Text.Upper | TESTFILES/masteragentcorrected.py:149 | `str.upper()` keeps the length and upper-cases every character in place |
| Text.UpperHasNoLower | TESTFILES/masteragentcorrected.py:149 | an upper-cased text holds no small letter |
| Text.ContainsAt | TESTFILES/masteragent.py:76-78 | `sub in s` holds exactly when `sub` occurs at some position of `s` |
| Text.Find | TESTFILES/ECMSPIPELINE/masteragent_ecms.py:174 | `s.find(c)` is -1 exactly when `c` is absent, and otherwise the first position of `c` |
| Text.RFind | TESTFILES/ECMSPIPELINE/masteragent_ecms.py:174 | `s.rfind(c)` is -1 exactly when `c` is absent, and otherwise the last position of `c` |
| Text.SliceBound | TESTFILES/masteragent.py:191 | a Python slice bound is clipped into the string, and a bound already inside it is kept |
| Text.PySlice | TESTFILES/ECMSPIPELINE/masteragent_ecms.py:174 | a Python slice, with negative and out-of-range bounds, is never longer than the string |
| Text.StripLeft | TESTFILES/ECMSPIPELINE/masteragent_ecms.py:78 | `lstrip()` removes exactly the leading blanks |
| Text.StripRight | TESTFILES/ECMSPIPELINE/masteragent_ecms.py:78 | `rstrip()` removes exactly the trailing blanks |
| Text.Strip | TESTFILES/ECMSPIPELINE/masteragent_ecms.py:78 | `strip()` leaves no blank at either end and leaves a text without blank ends as it is |
| Text.DropSuffix | TESTFILES/ECMSPIPELINE/filter_trashdata.py:21-22 | a text ending in the suffix loses exactly that suffix, and any other text is kept |
| Text.ReplaceAll | TESTFILES/masteragentcorrected.py:149 | `s.replace(pat, rep)` leaves a text without `pat` as it is |
| Text.AfterLast | TESTFILES/masteragent.py:79-80 | the last piece of a split on separators is a suffix free of separators, preceded by a separator unless it is the whole text |
| Text.Join | TESTFILES/masteragent.py:133 | joining no parts gives the empty text and joining one part gives that part |
| Text.JoinAppend | TESTFILES/masteragent.py:133 | joining two non-empty lists of parts is joining each and putting the separator between |
| Text.JoinLength | TESTFILES/masteragent.py:133 | a join is as long as its parts plus one separator between each two |
| Text.WordOnlyNoToken | TESTFILES/ECMSPIPELINE/masteragent_ecms.py:194-195 | in a text made only of word characters a `\b`-anchored token can occur only at the start |
| Text.NatToString | TESTFILES/masteragent.py:191 | `str(n)` of a natural number is a non-empty string of decimal digits |

## Left out

- Cosine similarity, numpy arithmetic and NaN scrubbing are not modelled. Similarity scores are a given `seq<real>`; an embedding is a `seq<real>` that is only stored and passed on.
- HTTP requests, time-outs and `time.sleep`: the services are scripts and sleeps are recorded pauses (whole seconds); `.env` key checks and request headers are not modelled.
- Reading the response bodies (`r.json()[...]`): the body of a 200 answer is taken to be the embedding or the message content itself.
- `json.loads` of the chat reply is a parameter `parse`; `json.dump`/`json.load` of files and the round trip through `chunks_full.jsonl` are not modelled (the chunks written are the chunks read back).
- rdflib parsing and the graph queries that extract variables (`extract_fmu_variable_names`' graph walk, `masteragent.py`'s extraction loop, `masteragentcorrected.py`'s extraction): the extracted names or records are inputs. Only the stable de-duplication loop is modelled.
- `load_skip_set_required` (reading the skip-list workbook and picking its column): the normalised skip set is an input.
- The loop over the `.ttl` files of the folder and the CSV writing at the end of `run_multifile` are not modelled; `Pipeline.RunFile` models the work done for one file, and the status counts are computed from the rows.
- Python's general regex engine: only the fixed out-of-domain token patterns are modelled, with the word-boundary and case rules written out. Case mapping and white space are ASCII-only: `str.strip()` also removes Unicode blanks such as U+00A0 and U+3000, which `Text.Strip` keeps, so "\u00a0Eng" normalises to "eng" in Python and keeps its leading blank in the model. Word characters are ASCII letters, digits and `_`; Python's `\b` and `re.I` also cover non-ASCII letters and digits, so a name such as `éPLC` is gated by the model but not by Python.
- Float rendering in reason texts (three decimals) and the rounding to four places of the compact candidate list are not modelled; ECMS reasons are a datatype carrying the numbers.
- Printing, progress output, the Streamlit UI, matplotlib figures, the per-file accuracy table and the per-domain table of `eval_results.py` (sklearn's `precision_recall_fscore_support`) are not modelled.
- The Matthews correlation coefficient of `eval_results_ecms.py` (a square root over reals) is not modelled.
- pandas reading and writing: tables are sequences of rows of cells (`Written(text)` or `Blank`); a non-text cell is taken through the text `str()` gives for it, and duplicate column names are not modelled.
- The LLM's confidence is taken to be a JSON number or null, and `best_match` a string or null; string or boolean confidences (which `float()` accepts or rejects, and `:.2f` rejects) and non-string matches (on which `cid.lower()` raises) are not modelled.
- JSON numbers are kept as the text `str()` gives for them. A dict or list `@id` is rendered by the flattening serialiser in the chunk's first line, not by Python's `repr`.
- `ficxer.py`'s file handling and its lookup of `data["@graph"]`: `Ficxer.FixGraph` is given the graph's items as an array.
- `FilterTrash`: dropping the helper key columns from the four outputs is not modelled, because the model never adds them to the rows.
- `Text.ReplaceAll`: only states that a text without the pattern is returned unchanged, since the one use replaces fixed patterns in unit tokens whose results are proved by the lemmas of `Units`.
- `Text.PySlice`: states only the length bound of a slice with arbitrary bounds; the exact slice for in-range bounds is stated by `Clients.JsonSlice`.
- `Ficxer.FixGraph`: on an error the contract does not say which items were already rewritten, because the script stops before writing anything.
- `EvalResults.LeftMerge`: states the row count bound and the origin of each joined row; the exact per-prediction rows are stated by `EvalResults.RowsFor`.
- Tie order among equal similarities: `np.argsort` is not a stable sort. `Retrieval.TopIndices` takes the lowest index among ties, but no proved property depends on it: every contract holds for any ranking meeting `IsTopK`.
- In the ECMS pipeline a top score in (0.40, 0.45) gives `HUMAN_REVIEW` with an empty match (`LOW_SIM`). `eval_results.py` drops ".ttl" before lower-casing, so a ".TTL" suffix stays in the key, while `filter_trashdata.py` lowers first.
- Not part of this model: `TESTFILES/AGENT0.py`, `TESTFILES/AGENT2.py`, `TESTFILES/AGENT3.py`, `TESTFILES/ui_masteragent.py`, `TESTFILES/ECMSPIPELINE/iterative_masteragent.py`, `TESTFILES/ECMSPIPELINE/table_for_paper.py`, `TESTFILES/ECMSPIPELINE/extractvariablesfromttl.py`, `TESTFILES/ECMSPIPELINE/clean_csv.py`, `TESTFILES/ttlfilegenrator.py`, `TESTFILES/test.py` and `load_to_rdf.py` (graph loading, a UI, orchestration, plotting, test-data generation and demos).
