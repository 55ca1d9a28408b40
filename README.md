# Local LLM validation servers and OCR service, modelled in Dafny

The system puts a local inference engine (llama.cpp through `llama_cpp.Llama`)
behind several small HTTP servers. A data-validation tool uses them to decide
whether a CSV value and a value scraped from a web page mean the same thing.
Next to them sits a Tesseract OCR service. This project models the
deterministic logic around the engine and around Tesseract, and proves
properties of it:

- **Health monitor** (`ServerHealth`), in `health.dfy`:
  - a request log of at most 100 entries and an error log of at most 50;
  - a consecutive-error counter, with an automatic recovery after five
    failures in a row, at most three per monitor;
  - a status chosen in a fixed priority order.
- **Model lifecycle managers**: `SafeLlamaServer` (`safe_manager.dfy`), the
  retrying `LlamaServer` (`manager.dfy`) and the minimal `LlamaServer` of the
  first server (`basic_server.dfy`). Each covers:
  - loading behind a file and memory gate, with bounded recursive retries
    and their delay schedules;
  - the input guards of generation, in their order, and the parameter
    clamps;
  - the request counter and the shutdown flag.
- **Model selection** and the `/models` listing of the production server
  (`production.dfy`), and the resource check of the stable server
  (`stable.dfy`).
- **Response classifiers**:
  - the YES/SIM rules (`production.dfy`, `stable.dfy`);
  - the cut at the first `}` and the true/match fallback (`basic_server.dfy`);
  - fence removal, JSON acceptance and the string-comparison fallback of the
    safe routes (`routes_safe.dfy`);
  - the mock rule table (`mock_validate.dfy`);
  - the JSON-candidate search for the pattern `\{[^}]+\}` (`json.dfy`).
- **OCR result shaping** (`ocr.dfy`):
  - crop clamping and the Tesseract configuration string;
  - words and lines built from `image_to_data`;
  - removal of the `data:` URL prefix, a simplified reading of the
    `data:[<mediatype>][;base64],<data>` syntax of section 3 of RFC 2397;
  - the per-image outcome and the batch assembly.

`common.dfy` and `text.dfy` hold the shared vocabulary. That covers the
engine as an oracle (its completion answers, the build outcomes, and a trace
of constructions, probes and sleeps) and the Python string operations on
ASCII case (`strip`, `lower`, `upper`, `in`, `replace`, `split`, `join`,
`find`).

How the model is built:

- **State.** Objects that change their fields in place are classes. These
  are `ServerHealth`, `SafeLlamaServer`, both `LlamaServer`s,
  `ProductionLLMServer` and `StableLLMServer`. Each class's methods are proved
  against a function on a value snapshot of its fields (`Monitor`,
  `SafeState`, `ManagerState`, ...). The lemmas are stated about those
  functions.
- **Routes.** The route handlers of the safe API are functions over those
  values.
- **Loops.** Where the source loops, the model uses methods with loops. These
  are model selection, the word/line loop and line emission of
  `perform_ocr`, and the batch.
- **Engine.** The engine is never run:
  - each completion is a `Completion` parameter (an answer with its
    `choices`, a response without `choices`, or an exception);
  - each load attempt of the safe manager is an `AttemptOutcome` (built and
    probed, constructor raised, timed out, or an exception escaping the
    attempt), indexed by the attempt's `retry_count`.
- **Other parameters.** The file system is a `FileInfo` record. Available
  memory (in bytes), `os.cpu_count()` and time are parameters. The two
  retrying loads look at the file and the memory again on every recursive
  call, so both are given per attempt, indexed by `retry_count`. Tesseract,
  base64 decoding, image verification and `json.loads` are function
  parameters.

Right after the fifth consecutive failure the status is not `degraded`. The
recovery that this failure triggers resets `consecutive_errors` to 0 inside
the same call, so the status read right after it is `warning` or
`recovering` (`Health.StatusAfterRecovery`).

## Model

| member | source | states |
|---|---|---|
| Health.Fresh | src/llm_server/core/health_monitor.py:14-27 | a new monitor has empty logs, cleared counters and satisfies the bounds invariant |
| Health.Recover | src/llm_server/core/health_monitor.py:65-91 | recovery succeeds iff fewer than 3 attempts were made; success adds one attempt and resets the counter, refusal changes nothing |
| Health.Push | src/llm_server/core/health_monitor.py:34-48 | appending to a bounded log and evicting the oldest keeps exactly the last `cap` entries, the new one last |
| Health.Record | src/llm_server/core/health_monitor.py:29-63 | the request log is the last 100 records with the new one appended; the error log grows only on failure, to its last 50; success zeroes the counter; a failure adds one, or runs the recovery when that reaches 5; the heartbeat is the call's time; bounds preserved |
| Health.ErrorRate | src/llm_server/core/health_monitor.py:99-110 | failures over total among records strictly newer than now-300, 0.0 with none; always within [0, 1] |
| Health.StatusOf | src/llm_server/core/health_monitor.py:112-118 | degraded iff counter >= 3; warning iff not degraded and rate > 0.1; recovering iff neither and attempts > 0; healthy otherwise (each an iff) |
| Health.Report | src/llm_server/core/health_monitor.py:93-129 | the report's status follows the priority rule on the monitor's counters and rate; rate in [0, 1]; totals within the log capacities |
| Health.KeepLastSnoc | src/llm_server/core/health_monitor.py:34-39 | after one append and the eviction, the newest entry is last, the length is min(old + 1, capacity), and the rest is the last capacity - 1 of the old log |
| Health.WindowHoldsMostRecent | src/llm_server/core/health_monitor.py:34-39 | after any sequence of calls the request log is the last 100 of all records, oldest first |
| Health.WindowFromEmpty | src/llm_server/core/health_monitor.py:34-39 | from an empty request log, the log after any calls is the last 100 of their records |
| Health.AfterManyRequests | src/llm_server/core/health_monitor.py:34-39 | after 150 calls on a fresh monitor the log holds exactly the last 100, in arrival order |
| Health.AlwaysBounded | src/llm_server/core/health_monitor.py:38-73 | every sequence of calls keeps both logs bounded and never makes more than 3 recoveries; attempts never decrease |
| Health.ExhaustedKeepsClimbing | src/llm_server/core/health_monitor.py:65-71 | with recoveries exhausted each failure adds exactly one to the counter and attempts stay put |
| Health.FailureRun | src/llm_server/core/health_monitor.py:42-87 | closed form of the counters after a run of n failures: every fifth failure spends one recovery and resets, until three are spent |
| Health.FifthFailureRecovers | src/llm_server/core/health_monitor.py:55-84 | from a cleared counter, four failures leave it at 4 with no recovery; the fifth runs one recovery and leaves it at 0 |
| Health.StatusAfterRecovery | src/llm_server/core/health_monitor.py:112-118 | right after the fifth failure the status is warning or recovering, not degraded |
| Health.ServerHealth.constructor | src/llm_server/core/health_monitor.py:14-27 | the fields are those of a fresh monitor |
| Health.ServerHealth.TriggerRecovery | src/llm_server/core/health_monitor.py:65-91 | answer and new fields are those of `Recover` on the old fields |
| Health.ServerHealth.RecordRequest | src/llm_server/core/health_monitor.py:29-63 | the new fields are `Record` of the old ones; the invariant is kept |
| Health.ServerHealth.LogRequest | src/llm_server/core/health_monitor.py:34-39 | the request log becomes the old one with the record appended and its oldest entry dropped past 100; nothing else changes |
| Health.ServerHealth.LogError | src/llm_server/core/health_monitor.py:44-47 | the error log becomes the old one with the record appended and its oldest entry dropped past 50; nothing else changes |
| Health.ServerHealth.GetHealthStatus | src/llm_server/core/health_monitor.py:93-129 | the report of the current fields at time now |
| SafeManager.CheckMemoryUsage | src/llm_server/core/model_manager_safe.py:44-62 | passes iff psutil is unavailable or at least 6·1024³ bytes are available |
| SafeManager.CheckModelIntegrity | src/llm_server/core/model_manager_safe.py:65-94 | accepts iff the file exists, can be read, is at least 100·1024·1024 bytes and its first four bytes are ASCII `GGUF` |
| SafeManager.SafeConfig | src/llm_server/core/model_manager_safe.py:124-127 | context 4096, batch 256, between 1 and 2 threads |
| SafeManager.Unload | src/llm_server/core/model_manager_safe.py:192-207 | no engine afterwards; loaded flag cleared when one was held; a no-op when none was |
| SafeManager.SafeLoad | src/llm_server/core/model_manager_safe.py:96-190 | shutdown, a loaded model, an exhausted retry budget, a failed file or memory gate return without building; success holds an engine from this path and the conservative configuration, built once and probed once; failure leaves no engine; coherence and counters kept |
| SafeManager.SafeLoadSchedule | src/llm_server/core/model_manager_safe.py:178-188 | whatever the outcomes, only exceptions escaping the attempt retry; a load constructs at most once and its sleeps are a prefix of (k+1)·5 |
| SafeManager.PersistentRaise | src/llm_server/core/model_manager_safe.py:106-188 | while both gates pass and every attempt block throws, the load returns False after exactly `max_retries - retry_count` attempts, having built nothing and slept exactly (k+1)·5 for each k but the last |
| SafeManager.GateFailsOnRetry | src/llm_server/core/model_manager_safe.py:110-188 | when the artifact or memory gate fails on the retry after a throwing attempt, the load returns False with one sleep and no construction |
| SafeManager.SleepThenSchedule | src/llm_server/core/model_manager_safe.py:178-188 | a retry sleeps (k+1)·5 before the next attempt: a rest keeping the schedule from k+1 gives a trace keeping it from k, with at most one construction |
| SafeManager.DefaultSchedule | src/llm_server/core/model_manager_safe.py:183-188 | with the default of two attempts a load sleeps never or once for 5 s |
| SafeManager.NoRetryAfterConstruction | src/llm_server/core/model_manager_safe.py:157-176 | a failed probe, a constructor exception or a timeout returns False with one construction and no delay |
| SafeManager.GenerateGuard | src/llm_server/core/model_manager_safe.py:230-237 | shutdown first, then not loaded, then a blank prompt; each an iff |
| SafeManager.SafeGenerate | src/llm_server/core/model_manager_safe.py:227-289 | a guarded call changes nothing and never reaches the engine; an accepted call is counted once whatever follows; the prompt reaches the engine only after a passed probe, with tokens in [1, 1024], temperature in [0, 1] (in-range values kept) and stops `\n\n`, `}`; success iff probe and answer have choices; the request id is the new count |
| SafeManager.ShutDown | src/llm_server/core/model_manager_safe.py:291-295 | the flag is set and no engine is held; counters kept |
| SafeManager.AfterShutdown | src/llm_server/core/model_manager_safe.py:291-295 | after shutdown every load returns False and every generation raises, both changing nothing |
| SafeManager.SafeLlamaServer.constructor | src/llm_server/core/model_manager_safe.py:28-42 | no engine, nothing loaded, counters at zero, no shutdown |
| SafeManager.SafeLlamaServer.UnloadModel | src/llm_server/core/model_manager_safe.py:192-207 | the new fields are `Unload` of the old ones |
| SafeManager.SafeLlamaServer.VerifyModelIntegrity | src/llm_server/core/model_manager_safe.py:209-225 | True iff loaded, an engine is held and the probe answer has choices |
| SafeManager.SafeLlamaServer.LoadModel | src/llm_server/core/model_manager_safe.py:96-190 | answer, new fields and trace are those of `SafeLoad`, recursion included |
| SafeManager.SafeLlamaServer.Generate | src/llm_server/core/model_manager_safe.py:227-289 | result, new fields and engine call are those of `SafeGenerate` |
| SafeManager.SafeLlamaServer.GenerateCounted | src/llm_server/core/model_manager_safe.py:240-272 | with a model loaded, result and engine call are those of `Counted` on the current fields: a failed probe fails before the engine sees the prompt, the call carries the clamped values and the stops `\n\n` and `}` |
| SafeManager.SafeLlamaServer.Shutdown | src/llm_server/core/model_manager_safe.py:291-295 | the new fields are `ShutDown` of the old ones |
| SafeManager.SafeLlamaServer.GetStatus | src/llm_server/core/model_manager_safe.py:297-305 | loaded flag agrees with the engine; the sizes are those every load uses |
| Manager.ManagedConfig | src/llm_server/core/model_manager.py:90-100 | context 8192 below 7 GiB and 4096 from there; 1 to 4 threads, the CPU count when it is 1 to 4; batch 512 |
| Manager.FreshLoad | src/llm_server/core/model_manager.py:43-147 | an exhausted budget or a file missing at this attempt returns False without building; success holds an engine of this path, the last one constructed, followed by a passing probe; failure leaves no engine |
| Manager.ManagedLoad | src/llm_server/core/model_manager.py:27-147 | a held engine that passes the re-check is kept with one probe; one that fails it is dropped and a fresh load follows |
| Manager.FreshLoadSchedule | src/llm_server/core/model_manager.py:125-147 | whatever the outcomes, at most `max_retries - retry_count` constructions, the sleeps being a prefix of (k+1)·2 |
| Manager.RetryTrace | src/llm_server/core/model_manager.py:140-145 | a failed attempt, its (k+1)·2 sleep and the rest: one construction more than the rest, and that sleep before the rest's delays |
| Manager.PersistentFailure | src/llm_server/core/model_manager.py:43-147 | while the file stays present and every attempt fails to build or to pass the probe, the load returns False after exactly `max_retries - retry_count` constructions, sleeping exactly (k+1)·2 for each k but the last |
| Manager.WinningAttempt | src/llm_server/core/model_manager.py:58-121 | a successful load's engine comes from the attempt after as many sleeps as the trace shows: that attempt saw the file, passed the probe, and its file size chose the configuration and its load time is kept |
| Manager.VanishedFileEndsRetry | src/llm_server/core/model_manager.py:58-145 | a file gone after the sleep ends the load: False, one construction, one sleep of (k+1)·2 |
| Manager.RetrySchedule | src/llm_server/core/model_manager.py:125-147 | a failed attempt (one construction, no sleep) and a sleep of (k+1)·2 before a rest keeping the schedule from k+1 keep it from k, within the remaining construction budget |
| Manager.DefaultSchedule | src/llm_server/core/model_manager.py:140-145 | with the default of three attempts a load sleeps 2 s then 4 s at most, never a third time |
| Manager.MemoryOnlyWarns | src/llm_server/core/model_manager.py:65-86 | the available memory seen by the attempts never changes the outcome of a load, and a present file is built at least once while the retry budget lasts |
| Manager.StopSequences | src/llm_server/core/model_manager.py:226-229 | `}` is among the stops iff the lowercased prompt does not mention json; `\n\n` and `END` always are |
| Manager.GenerateGuard | src/llm_server/core/model_manager.py:186-196 | not loaded first, then a blank prompt; each an iff |
| Manager.ManagedGenerate | src/llm_server/core/model_manager.py:176-288 | guarded calls change nothing; accepted calls are counted once before the probe; tokens clamped into [1, 4096], in-range kept; success iff probe and answer have choices; the request id is the new count |
| Manager.LlamaServer.constructor | src/llm_server/core/model_manager.py:19-25 | no engine, nothing loaded, counters at zero |
| Manager.LlamaServer.VerifyModelIntegrity | src/llm_server/core/model_manager.py:149-174 | True iff loaded, an engine is held and the probe answer has choices |
| Manager.LlamaServer.LoadModel | src/llm_server/core/model_manager.py:27-147 | answer, new fields and trace are those of `ManagedLoad` |
| Manager.LlamaServer.Attempt | src/llm_server/core/model_manager.py:43-147 | the guarded attempt with its recursive retry follows `FreshLoad` |
| Manager.LlamaServer.Generate | src/llm_server/core/model_manager.py:176-288 | result, new fields and engine call are those of `ManagedGenerate` |
| Manager.LlamaServer.GenerateCounted | src/llm_server/core/model_manager.py:198-268 | with a model loaded, result and engine call are those of `Counted` on the current fields: a failed probe fails before the engine sees the prompt, the call carries the clamped token count and the stops chosen from the prompt |
| Json.MatchEnd | src/llm_server/core/model_manager.py:293-294 | the end of a match of `\{[^}]+\}` starting at i, or None when none starts there |
| Json.FirstSpan | src/llm_server/core/model_manager.py:293-294 | the leftmost match: no match starts before it, and None means none at all |
| Json.ExtractJson | src/llm_server/core/model_manager.py:290-303 | None without a candidate span; a result is the decoding of the first candidate, and an undecodable one gives None |
| Json.JsonCandidate | src/llm_server/core/model_manager.py:293-299 | None iff no span matches; otherwise a matching span of the text |
| Json.CandidateShape | src/llm_server/core/model_manager.py:293-294 | a candidate opens with `{`, closes with `}`, has a character between and no `}` before its end |
| Json.NoCandidateNoJson | src/llm_server/core/model_manager.py:296-303 | with no matching span the result is None whatever the decoder |
| Json.EmptyBracesNoCandidate | src/llm_server/core/model_manager.py:293-303 | `{}` is not a candidate and yields None |
| Production.CanLoad | llm-server-production.py:120-122 | loadable iff the requirement in GB is at most the available bytes over 1024³, exactly, and the file exists |
| Production.Suitable | llm-server-production.py:117-128 | the surviving descriptors all fit in memory, have their file, and come from the table |
| Production.SelectBestModel | llm-server-production.py:112-137 | the loop returns the last suitable descriptor, or None |
| Production.SuitableStep | llm-server-production.py:117-128 | filtering one more descriptor appends it exactly when it fits and its file exists |
| Production.NoneIffNothingFits | llm-server-production.py:130-132 | nothing is selected iff no descriptor fits and exists |
| Production.SelectedIsLastFitting | llm-server-production.py:134-137 | the selection passes the filter and no later descriptor does |
| Production.LastFittingIndex | llm-server-production.py:134-137 | the selection sits at a position of the table where it passes the filter and every later descriptor fails it |
| Production.SelectsQwenAt2Point2 | llm-server-production.py:47-84 | with 2.2 GB and all files present the table yields qwen-1.8b |
| Production.Info | llm-server-production.py:241-251 | `can_load` is the selection filter, `file_exists` the file's presence, `is_current` a name match |
| Production.ListModels | llm-server-production.py:234-259 | one entry per descriptor, in table order |
| Production.ListingAgreesWithSelection | llm-server-production.py:249-249 | an entry is loadable iff the filter keeps it, so a selection exists iff some entry is loadable |
| Production.EngineFor | llm-server-production.py:173-190 | the engine is built with the descriptor's path, context, threads and batch |
| Production.ProdLoad | llm-server-production.py:158-211 | no selection changes nothing; otherwise the descriptor is recorded before loading and stays; True iff the self-test gave a response with choices; a response without choices keeps the new engine; an exception drops the engine |
| Production.ClassifyAnswer | llm-server-production.py:307-310 | match iff the stripped uppercased answer contains YES or SIM; 0.9 on match, else 0.1 |
| Production.ClassifyIgnoresCase | llm-server-production.py:308-309 | lowercasing the answer first changes nothing |
| Production.PromptValues | llm-server-production.py:285-295 | each value is its own first min(length, 50) characters for tinyllama, min(length, 100) otherwise |
| Production.Validate | llm-server-production.py:261-334 | 503 before the body is read when no model is held; 400 without a body; 200 iff the answer has choices, naming the model; every other code carries no match and 0.0 |
| Production.ProductionLLMServer.constructor | llm-server-production.py:87-92 | no engine and no descriptor |
| Production.ProductionLLMServer.LoadModel | llm-server-production.py:158-211 | answer, new fields and trace are those of `ProdLoad` |
| Production.ProductionLLMServer.Cleanup | llm-server-production.py:336-346 | no engine afterwards; the descriptor stays |
| Common.BuildAndTest | llm-server-production.py:192-211 | True iff the engine was built and the self-test answered with choices; a response without choices keeps the engine; an exception drops it |
| Stable.CheckSystemResources | llm-server-stable.py:73-99 | passes iff at least 3 GiB is available and the model file exists; a psutil failure rejects |
| Stable.StableLoad | llm-server-stable.py:120-168 | a failed resource check returns False building nothing and keeping the engine held; otherwise one construction and the self-test rule |
| Stable.LoadNeedsResources | llm-server-stable.py:120-168 | a True load implies enough memory, the file present, and the fixed engine held |
| Stable.ClassifyAnswer | llm-server-stable.py:229-232 | match iff the stripped uppercased answer contains YES; 0.9 on match, else 0.1 |
| Stable.SimIsNotYes | llm-server-stable.py:229-232 | `SIM` is rejected |
| Stable.LowerYesAccepted | llm-server-stable.py:229-232 | ` yes ` is accepted |
| Stable.PromptValues | llm-server-stable.py:212-217 | each value is its own first min(length, 100) characters |
| Stable.Validate | llm-server-stable.py:188-255 | 503 with no model, 400 without a body, 500 with no choices, each with no match and 0.0; 200 iff all present, classified |
| Stable.StableLLMServer.constructor | llm-server-stable.py:57-58 | no engine |
| Stable.StableLLMServer.LoadModel | llm-server-stable.py:120-168 | answer, engine and trace are those of `StableLoad` |
| Stable.StableLLMServer.Cleanup | llm-server-stable.py:257-267 | no engine afterwards, and nothing changes when none was held |
| BasicServer.BasicLoad | llm-server.py:25-49 | a loaded server answers True unchanged; a constructor exception answers False unchanged; otherwise the engine is held and loaded; the counter is untouched |
| BasicServer.BasicGenerate | llm-server.py:51-79 | not loaded raises without counting; otherwise the call is counted before the engine runs; success iff loaded and the answer has choices, carrying the stripped text |
| BasicServer.TrimAtBrace | llm-server.py:163-166 | an answer opening with `{` and holding `}` becomes its prefix up to the first `}`; any other is unchanged |
| BasicServer.TrimIdempotent | llm-server.py:164-166 | cutting twice is cutting once |
| BasicServer.FallbackMatch | llm-server.py:174-177 | match iff the lowercased text holds both `true` and `match`; confidence 0.5 |
| BasicServer.ValidateReply | llm-server.py:158-189 | a failed generation gives 500; undecodable text the fallback; a decoded object is passed on with the tokens; any other decoded value gives 500 |
| BasicServer.LlamaServer.constructor | llm-server.py:19-23 | no engine, nothing loaded, counters at zero |
| BasicServer.LlamaServer.LoadModel | llm-server.py:25-49 | answer and new fields are those of `BasicLoad` |
| BasicServer.LlamaServer.Generate | llm-server.py:51-79 | result, new fields and engine call are those of `BasicGenerate` |
| BasicServer.LoadRoute | llm-server.py:94-107 | no body gives 500; a missing path gives 404 without asking the server; otherwise `BasicLoad`, 200 iff it succeeds |
| BasicServer.GenerateRoute | llm-server.py:109-125 | no body gives 500; an empty prompt gives 400 without asking the server; otherwise `BasicGenerate`, 200 iff it succeeds |
| BasicServer.ValidateRoute | llm-server.py:127-189 | no body gives 500 unchanged; otherwise one generation of 200 tokens at 0.1, then the reply rules |
| RoutesSafe.TokenArg | src/llm_server/api/routes_safe.py:128-128 | the first key when present, else the second, else 512 |
| RoutesSafe.KeyPrecedence | src/llm_server/api/routes_safe.py:127-163 | the two routes read different counts iff both keys are present with different values; both default to 512 |
| RoutesSafe.RouteParams | src/llm_server/api/routes_safe.py:134-136 | tokens in [1, 1024] and temperature in [0, 1], in-range values kept |
| RoutesSafe.GenerateRoute | src/llm_server/api/routes_safe.py:119-189 | no body or an empty prompt gives 400 without asking the manager; otherwise the manager runs on the clamped values, 200 iff it succeeds, else 500 |
| RoutesSafe.CompareFallback | src/llm_server/api/routes_safe.py:332-349 | equal normalised values give (true, 1.0); equal without spaces (true, 0.9); containment either way (true, 0.7); otherwise (false, 0.5); match iff one of these holds |
| RoutesSafe.FallbackSymmetric | src/llm_server/api/routes_safe.py:338-349 | swapping the values changes nothing |
| RoutesSafe.NoSpacesKeepsWord | src/llm_server/api/routes_safe.py:344-344 | a non-blank normalised value stays non-empty without spaces |
| RoutesSafe.EmptySide | src/llm_server/api/routes_safe.py:341-349 | one blank and one non-blank value give (true, 0.7) in either order |
| RoutesSafe.BothBlank | src/llm_server/api/routes_safe.py:341-343 | two blank values give (true, 1.0) |
| RoutesSafe.CleanFences | src/llm_server/api/routes_safe.py:272-276 | the cleaned answer is no longer than the original and is already stripped |
| RoutesSafe.RemoveBeforeTail | src/llm_server/api/routes_safe.py:276-276 | removing a pattern from a text ending with it removes just that ending |
| RoutesSafe.NoTickNoFence | src/llm_server/api/routes_safe.py:276-276 | a text without backticks holds no fence |
| RoutesSafe.FencedAnswer | src/llm_server/api/routes_safe.py:272-276 | an answer wrapped in a json fence is reduced to its stripped body |
| RoutesSafe.NoFenceOnlyStrips | src/llm_server/api/routes_safe.py:276-276 | an answer without backticks is only stripped |
| RoutesSafe.StripIdempotent | src/llm_server/api/routes_safe.py:272-276 | stripping twice is stripping once |
| RoutesSafe.ConfidenceOf | src/llm_server/api/routes_safe.py:316-318 | numbers clamp into [0, 1] (in-range kept), booleans give 1.0/0.0, anything else fails |
| RoutesSafe.DecideVerdict | src/llm_server/api/routes_safe.py:281-384 | a decoded answer with all three keys decides (match, clamped confidence, the tokens, its reasoning); a confidence that is neither number nor boolean gives 500; otherwise the fallback on the values; confidence always in [0, 1]; every failure is (false, 0.0) |
| RoutesSafe.ValidateRoute | src/llm_server/api/routes_safe.py:191-384 | no body gives 400; the manager changes as in one generation of 100 tokens at 0.1; a failed generation gives 500 with (false, 0.0); otherwise the verdict of `DecideVerdict`; confidence always in [0, 1] |
| RoutesSafe.HealthRoute | src/llm_server/api/routes_safe.py:20-90 | normal path: 200 with the monitor's report, recorded as a success; exception path: 500, recorded as a failure with its message; integrity only claimed for a loaded engine whose probe answers |
| RoutesSafe.HealthRecordsOnce | src/llm_server/api/routes_safe.py:67-78 | each call adds exactly one request record, the newest, and an error record exactly when it fails |
| MockValidate.EmailRule | test-without-llm.py:43-46 | match iff equal; 0.95 on match, else 0.1 |
| MockValidate.NumberRule | test-without-llm.py:47-56 | two numbers match iff within 0.001 (0.95/0.1); otherwise equality decides (0.8/0.2) |
| MockValidate.TextRule | test-without-llm.py:57-78 | equal (true, 0.95); containment (true, 0.8); both longer than 3 with a shared word (true, exactly 0.7) or not (false, 0.2); otherwise (false, 0.1); match iff one of the matching rules holds |
| MockValidate.Validate | test-without-llm.py:26-95 | no body gives 400 with no match and 0.0; otherwise 200 with the rule of the field type, text by default, on the normalised values |
| MockValidate.IgnoresCase | test-without-llm.py:38-39 | uppercasing both values changes no verdict |
| MockValidate.TextSymmetric | test-without-llm.py:57-78 | swapping the values changes nothing |
| MockValidate.BlankTextMatches | test-without-llm.py:62-64 | a blank value matches any text with confidence at least 0.8 |
| Ocr.ClampRegion | src/ocr/python-ocr-service.py:196-202 | the corner inside the image, sizes at least 1, the region inside the image when the corner is, in-range regions kept |
| Ocr.CropOf | src/ocr/python-ocr-service.py:192-202 | a crop applies iff all four keys are present, and then it is the clamped region |
| Ocr.ConfigString | src/ocr/python-ocr-service.py:245-245 | without white- or blacklist, the language, page-mode and engine-mode settings separated by single spaces |
| Ocr.ConfigParts | src/ocr/python-ocr-service.py:221-243 | language, page mode and engine mode with defaults eng, 6, 3, then the whitelist and blacklist clauses when present |
| Ocr.DefaultConfig | src/ocr/python-ocr-service.py:223-245 | no options give `-l eng --psm 6 --oem 3` |
| Ocr.WhitelistClause | src/ocr/python-ocr-service.py:235-245 | a whitelist adds its clause after one space and changes nothing before |
| Ocr.BlacklistClause | src/ocr/python-ocr-service.py:240-245 | a blacklist adds its clause last, after one space |
| Ocr.ConfidentIff | src/ocr/python-ocr-service.py:267-267 | a box becomes a word iff its confidence is at least 1 |
| Ocr.BoxOf | src/ocr/python-ocr-service.py:271-276 | the box spans the word's width and height |
| Ocr.Words | src/ocr/python-ocr-service.py:262-278 | at most one word per box, each with confidence at least 0.01 |
| Ocr.WordsFromBoxes | src/ocr/python-ocr-service.py:266-278 | every word is the word of a confident box |
| Ocr.LinesOf | src/ocr/python-ocr-service.py:280-292 | every line holds at least one word and its box is its first word's box |
| Ocr.LineGrouping | src/ocr/python-ocr-service.py:280-292 | a line exists iff some confident box has its number; its words are those boxes' words in input order; its box is its first word's box |
| Ocr.LinesStep | src/ocr/python-ocr-service.py:280-292 | a confident box adds its word to the end of its line, opening the line with its own box when new; any other box leaves every line unchanged |
| Ocr.WordsOnLineStep | src/ocr/python-ocr-service.py:266-292 | the words on a line after one more box are those before, then that box's word when it is a confident box on that line |
| Ocr.LineOrderKeys | src/ocr/python-ocr-service.py:280-292 | the dictionary's key order lists every line number once |
| Ocr.GroupWords | src/ocr/python-ocr-service.py:262-292 | the loop builds exactly the words, the lines and the key order above |
| Ocr.Insert | src/ocr/python-ocr-service.py:296-296 | inserting keeps a key sequence ascending and adds exactly the new key |
| Ocr.LineOf | src/ocr/python-ocr-service.py:297-304 | the line keeps its box; a one-word line is that word's text and confidence; a line without words is empty with confidence 0 |
| Ocr.EmitLines | src/ocr/python-ocr-service.py:294-304 | every line number once, ascending, each with its text joined by spaces, mean confidence and box |
| Ocr.MeanBounds | src/ocr/python-ocr-service.py:298-307 | a mean lies within the bounds of its values, 0 without values |
| Ocr.ConfidenceInRange | src/ocr/python-ocr-service.py:267-307 | with Tesseract confidences at most 100, word and overall confidences lie in [0, 1] |
| Ocr.PerformOcr | src/ocr/python-ocr-service.py:214-322 | the configuration string is passed to Tesseract; stripped text, the words, the language and the mean confidence; one line per line number in ascending order |
| Ocr.StripDataUrl | src/ocr/python-ocr-service.py:66-67 | a value without the prefix is kept; with it, the text between the first comma and the next, or a failure without a comma |
| Ocr.DataUrlPayload | src/ocr/python-ocr-service.py:109-110 | a data URL with a single comma yields everything after it |
| Ocr.Decoded | src/ocr/python-ocr-service.py:69-85 | the first of decoding, empty data, invalid image and OCR failure that fails, else the OCR result |
| Ocr.ProcessImage | src/ocr/python-ocr-service.py:105-124 | no comma and a blank payload fail before decoding; otherwise the decoding chain |
| Ocr.EntryFor | src/ocr/python-ocr-service.py:125-134 | the entry's id is the image's own or its position, and its outcome that of the image |
| Ocr.ExtractBatch | src/ocr/python-ocr-service.py:104-136 | one entry per image, in order, failures included |
| Ocr.MissingImageIsError | src/ocr/python-ocr-service.py:108-113 | an image without data becomes an error entry with its position as id |
| Ocr.ExtractRoute | src/ocr/python-ocr-service.py:55-91 | no image gives 400; no comma after the prefix gives 500; a failed recognition 500; other failures 400; otherwise 200 with the result |
| Ocr.ExtractAgreesWithBatch | src/ocr/python-ocr-service.py:105-117 | for a non-blank payload the route succeeds iff the batch entry does, with the same result |

## Left out

- Threads and locks are not modelled; every operation runs sequentially.
  This covers `_lock`, `threading.Event`, `ServerHealth.lock` and the load
  thread with its 60 s join, whose timeout is one attempt outcome. The safe
  manager's `load_model` takes its non-reentrant lock again through
  `unload_model` and through its recursive retry, which would block a real
  process. The model treats those calls as plain calls.
- `time.sleep`, `time.time`, `gc.collect` and `psutil` are not called.
  Delays are recorded as values in an effect trace. Time and available
  memory are parameters, and a collection is a no-op.
- Floating-point arithmetic is left out. This covers processing times,
  `response_time_ms`, the unused adaptive timeout of `generate`, and
  printing sizes in GB. Memory thresholds are exact comparisons on bytes.
  Confidences are exact reals.
- `json.loads`, the `re` engine, base64 decoding, PIL verification and
  Tesseract are oracles. Case conversion is ASCII only. `strip`/`split` use
  Python's whitespace set, without Unicode normalisation.
- The prompt templates and the `reasoning`, `raw_response` and
  `processing_time` fields of the replies are left out. Only codes, match
  flags, confidences, token counts and model names are kept.
- Requests are modelled only after parsing:
  - request bodies are given as the values the handlers read, after
    `str(...)` and after their defaults;
  - a non-string or non-numeric value of another JSON type (which could make
    `min`/`max` raise) is not modelled;
  - the `request.is_json` and empty-body checks are folded into one absent
    body.
- The image work is left out: decoding, colour conversion, threshold,
  denoise, resize, the crop itself, the numpy slice and the `boundingBox`
  and `processingTime` fields.
  - The OCR result is what Tesseract returns on the processed image.
  - A rerun of the preprocessing fallback on an exception is not modelled.
- Ocr.ExtractBatch: does not model the 400 for a body without `images`, nor
  the 500 when an entry is not a dictionary.
- The `image_to_data` columns are modelled as one row per box. Columns of
  unequal length, and `conf` values that are strings, are not modelled.
- The `/languages` route, service start/stop, and the `/health` of the
  production, stable and first servers are left out. Those `/health` routes
  only read the fields. The `/load` route of the safe routes is also left
  out.
- The entry points and wiring are left out, as are the test and diagnostic
  scripts that drive the servers over HTTP or by subprocess.
- SafeManager.SafeLoad: an exception escaping the attempt block (`AttemptRaised`) is assumed to
  happen before anything is constructed. A failing `stat()` inside the
  artifact gate is folded into "not readable".
- SafeManager.SafeLoad: `max_retries` and `retry_count` are natural numbers. A negative value is
  not modelled.
- MockValidate.NumberRule: Python's `float()` parsing is an oracle.
- BasicServer.BasicGenerate: a completion with `choices` is taken to carry
  `usage.completion_tokens`. One without `usage` raises `KeyError` at
  llm-server.py:72 and is not modelled. The two managers read it with
  `.get(..., 0)`, which an answer with 0 tokens covers.
- Manager.FreshLoad: `os.cpu_count()` is read once for the whole load; it
  does not change while the process runs.
- No decision cache, field-type affinity or fallback order is modelled. No
  such code exists in the files modelled.
