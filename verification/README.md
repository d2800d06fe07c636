# Voice-agent configuration and metrics core, in Dafny

This project models the pure-logic core of a LiveKit voice agent. The agent
turns caller speech into text (STT), sends it to a language model (LLM),
speaks the reply (TTS) and records per-stage latency. The model covers:

- `config.py`: the per-stage provider priority lists built from which API
  keys are present (`get_service_priority`), and the validation status
  built from those lists, the LiveKit credentials and `TARGET_LATENCY`
  (`validate_config`).
- `main.py`: the `MetricsTracker` record, which has append-only delay sequences,
  counters, session start and end, and the summary row `save_to_excel`
  appends to the metrics sink. It also covers `VoiceAgent.entrypoint`: provider
  selection from key presence, then the per-chunk STT -> LLM -> TTS -> send loop.
  In that loop the first exception ends the loop. When it is an `Exception`
  the handler records one error; any other exception (such as
  `asyncio.CancelledError` or `KeyboardInterrupt`) records none and leaves
  `entrypoint`. Either way the `finally` block ends the session and saves the
  summary.

Files:

- `wrappers.dfy`: `Option`.
- `stats.dfy`: sum, mean, max and min over `real` samples.
- `config.dfy`: module `Config`.
- `metrics.dfy`: module `MetricsTracker`.
- `agent.dfy`: module `Agent`.

Modelling choices:

- A credential is present exactly when Python's truthiness accepts it, that
  is, it is set and is not the empty string (`Config.Present`).
- `session_start` counts as started when it is set and is not `0.0`, again by
  truthiness (`MetricsTracker.Started`). A clock reading of exactly 0 therefore
  makes `end_session` a no-op.
- Delays are exact `real`s, so averages, maxima and minima are exact.
- The tracker is a value. Each `record_*` method is either `Record` (append
  to one of the four sample sequences) or `Increment` (add one to one of the
  four counters). A session is a sequence of tracker calls (`Call`), and the
  tracker after the session is `Replay` of those calls.
- `entrypoint` is a fold over scripted chunk outcomes (`Agent.Chunk`): a
  chunk is served, or its cycle raises at STT, LLM, TTS or send. Delays are
  given as non-negative parameters. TTFD is measured from the LLM call (as
  the code does, where `start_tts` is taken but not used), so it is
  `llm + tts` and never below the TTFT of the same cycle.
- One `MetricsTracker` is created per `VoiceAgent`, so `entrypoint` starts
  from whatever the agent's tracker already holds. `start_session` clears
  nothing. The lemmas state the effect as offsets from any tracker, and as
  exact values from a fresh tracker.
- Whether a raised exception is an `Exception` is `Run.caught`. When it is
  not, the handler is skipped and `Outcome.propagates` says that
  `entrypoint` raises after its `finally` block.
- A provider constructor that raises is `Run.setupOk == false`. An audio
  stream that raises when asked for the next chunk has the same effect as a
  chunk whose STT fails, because nothing is recorded before the exception.
- The metrics spreadsheet is a sequence of `Summary` rows. `Run.saved ==
  false` stands for an `Exception` raised inside `save_to_excel` before
  `df.to_excel` starts writing (reading the old file, building the frame),
  which is caught and leaves the sink as it was.

Behaviour of the code worth noting:

- One failing cycle ends the whole session. There is no per-cycle recovery.
- Interruptions and total latencies are never recorded by `entrypoint`.
- `record_*` calls are accepted before `start_session` and after
  `end_session`.
- A second `start_session` does not fail.
- `end_session` is silently skipped when no session was started.
- The "Latency Target Met (<2s)" cell compares the average total latency with
  a hard-coded 2.0 s, not with `TARGET_LATENCY`. Since `entrypoint` never
  records a total latency, the cell is true for every session it runs on a
  tracker without such samples.

## Model

| member | source | states |
|---|---|---|
| Config.ServicePriority | config.py:97-125 | each stage list equals the stage's fixed priority order filtered by key presence, built by one guarded append per provider |
| Config.KeepConfiguredSnoc | config.py:106-123 | a guarded append extends the filter of an order by exactly one provider |
| Config.KeepConfiguredMembers | config.py:106-123 | a provider is in a filtered list iff it is in the order and its key is present |
| Config.KeepConfiguredIsSubsequence | config.py:99-125 | a filtered list keeps the order of the fixed priority list |
| Config.KeepConfiguredNoDuplicates | config.py:99-125 | filtering a duplicate-free order yields no duplicates |
| Config.PriorityMembers | config.py:99-125 | a provider is in a stage's list iff it is in that stage's fixed order (STT: deepgram, openai; LLM: groq, openai; TTS: elevenlabs, cartesia, openai) and its key is present |
| Config.PriorityKeepsOrder | config.py:99-125 | each stage list follows the stage's fixed order and has no duplicates |
| Config.KeepConfiguredNonEmpty | config.py:106-123 | a filtered order is non-empty iff some provider in the order has its key |
| Config.NonEmptyIffSomeConfigured | config.py:105-123 | a stage list is non-empty iff some provider of that stage has its key |
| Config.StageCoverage | config.py:108-123 | an OpenAI key fills all three stages; without it STT needs Deepgram, LLM needs Groq, TTS needs ElevenLabs or Cartesia |
| Config.ValidateConfig | config.py:128-155 | available services are the priority lists; valid iff LiveKit key and secret are present and no stage is empty; one error for missing LiveKit credentials plus one "No <STAGE> service configured" per empty stage, all messages distinct; warnings are non-empty iff target latency > 3.0, and then hold only the latency warning |
| Config.StageErrorsShape | config.py:145-149 | the stage loop visits STT, LLM and TTS once each and adds exactly one error per empty stage, naming that stage |
| Config.ConfigErrorsShape | config.py:138-149 | one error for missing LiveKit credentials plus one per empty stage, each naming what is missing |
| Config.WarningsNeverAffectValidity | config.py:151-153 | the target latency changes neither validity nor the errors |
| Config.DefaultLatencyNoWarning | config.py:24 | the default `TARGET_LATENCY` of 2.0 s draws no latency warning |
| Config.ValidationDependsOnlyOnPresence | config.py:128-155 | two configurations with the same key presence and target latency give identical status |
| MetricsTracker.NewTracker | main.py:18-33 | a new tracker has no session, empty sample sequences and zero counters |
| MetricsTracker.StartSession | main.py:35-39 | sets the start clock, id and start time; samples, counters, end time and duration are kept |
| MetricsTracker.Record | main.py:41-52 | appends one sample to its own sequence; other sequences, counters and session fields unchanged |
| MetricsTracker.Increment | main.py:54-65 | adds exactly 1 to its own counter; other counters, samples and session fields unchanged |
| MetricsTracker.EndSession | main.py:67-71 | no-op unless a session was started; otherwise sets end time and duration = end clock - start clock and nothing else |
| MetricsTracker.ReplayData | main.py:41-70 | after any call sequence each sample sequence is the old one plus the values recorded into it, in call order, and each counter is the old value plus its increments |
| MetricsTracker.ReplayKeepsSession | main.py:41-65 | record calls never touch the session fields |
| MetricsTracker.ReplayAppend | main.py:35-70 | tracker calls compose: replaying a + b is replaying b after a |
| Stats.Mean | main.py:75-78 | the average is 0 for no samples and otherwise times the count equals the sum |
| Stats.Largest | main.py:92 | max is a sample and no sample exceeds it |
| Stats.Smallest | main.py:93 | min is a sample and no sample is below it |
| Stats.MaxOrZero | main.py:92 | the Max Latency cell: 0 when empty, else the maximum sample |
| Stats.MinOrZero | main.py:93 | the Min Latency cell: 0 when empty, else the minimum sample |
| Stats.MeanBetweenExtremes | main.py:78-93 | for non-empty samples min <= average <= max |
| Stats.MeanWithinDefaults | main.py:78-93 | with the zero defaults, min cell <= average cell <= max cell for any samples |
| MetricsTracker.Summarize | main.py:73-96 | the summary copies ids, times and counters, each average is the mean of its sequence (0 when empty), max and min are 0 when there are no latency samples and are themselves samples otherwise, min <= average <= max, every latency sample lies in [min, max], and "target met" iff average latency < 2.0 |
| MetricsTracker.NoLatencySamplesMeetTarget | main.py:78-95 | with no total-latency samples the average is 0 and the target counts as met |
| MetricsTracker.Save | main.py:97-104 | a successful save appends exactly the summary after all existing rows, which keep their order; a save that fails before writing leaves the sink unchanged |
| Agent.SelectProviders | main.py:117-150 | STT is Deepgram iff its key is present, LLM is Groq iff its key is present, TTS is ElevenLabs, else Cartesia, else OpenAI; each selection heads its stage's priority list when that list is non-empty, and is OpenAI otherwise |
| Agent.ValidConfigSelectsHead | main.py:117-150 | whenever validation succeeds, every selected provider is the head of its stage's available list |
| Agent.SttStepFacts | main.py:158-163 | once transcription returns, the STT delay is recorded and the user-message counter bumped, nothing else |
| Agent.LlmStepFacts | main.py:166-170 | once the LLM returns, only a TTFT sample is recorded |
| Agent.TtsStepFacts | main.py:173-179 | once synthesis returns, a TTFD sample measured from the LLM call is recorded and the agent-response counter bumped |
| Agent.HandlerFacts | main.py:185-187 | the `except Exception` handler records nothing but one error |
| Agent.CycleSamples | main.py:157-182 | one cycle records its STT delay unless STT raised, its TTFT if the LLM returned, and its TTFD only if synthesis returned; never a total latency |
| Agent.CycleCounts | main.py:157-182 | one cycle bumps the user-message counter unless STT raised and the agent-response counter only if synthesis returned; no error, interruption or session call |
| Agent.FullCycleSamples | main.py:157-179 | a cycle that reaches synthesis records exactly one STT, TTFT and TTFD sample |
| Agent.PartialCycleSamples | main.py:157-175 | a cycle that fails in synthesis has recorded its STT and TTFT samples but no TTFD |
| Agent.FullCycleCounts | main.py:157-179 | a cycle that reaches synthesis bumps the user-message and agent-response counters once each |
| Agent.LoopKinds | main.py:157-182 | the loop never starts or ends a session and never records an error, an interruption or a total latency |
| Agent.LoopUserMessages | main.py:157-163 | user messages equal STT samples, at most one per chunk |
| Agent.LoopAgentResponses | main.py:157-179 | agent responses equal TTFD samples |
| Agent.LoopStageOrder | main.py:157-177 | TTFD samples never outnumber TTFT samples, which never outnumber STT samples |
| Agent.LoopTtfdAfterTtft | main.py:166-177 | each TTFD sample is at least the TTFT of its cycle |
| Agent.LoopStopsAtFirstFailure | main.py:157-182 | the loop ends with the first raising chunk's cycle; later chunks are never processed |
| Agent.LoopFirstFailure | main.py:157-182 | the loop's calls are those of the completed cycles, then those of the raising cycle |
| Agent.LoopAllServed | main.py:157-182 | when every chunk is served, each sequence holds one sample per chunk in chunk order, messages = responses = chunk count, no error |
| Agent.LoopServedSeries | main.py:157-182 | over served chunks, each of the STT, TTFT and TTFD series holds one sample per chunk, in chunk order |
| Agent.ServedCycleSample | main.py:157-182 | a served cycle records exactly its own sample into each of the STT, TTFT and TTFD series |
| Agent.LoopFailureCounts | main.py:157-182 | when chunk n raises first: n samples per stage from completed cycles plus those of the stages before the failure |
| Agent.TryFacts | main.py:116-187 | the try block and its handler record one error iff provider construction or some chunk raised an `Exception`, none for any other exception, and never an interruption or total latency |
| Agent.SessionBracketed | main.py:113-190 | start_session is the first and end_session the last tracker call, each exactly once, on success and failure paths alike |
| Agent.SessionEffect | main.py:111-190 | the session sets id, start time and start clock, sets end time and duration when started with a non-zero clock, and otherwise adds exactly what the try block records |
| Agent.Entrypoint | main.py:111-190 | selects providers from the keys, ends the session, appends exactly one summary row when the save succeeds, adds one error iff something raised an `Exception`, and raises to its caller iff something raised another exception; interruptions and total latencies unchanged |
| Agent.SessionAppendsPairedSamples | main.py:157-190 | on any tracker, a session only appends samples, and keeps messages paired with STT samples and responses with TTFD samples |
| Agent.SessionTtfdAfterTtft | main.py:166-190 | on any tracker, a session adds no more TTFD than TTFT samples, and each added TTFD is at least its cycle's TTFT |
| Agent.ServedSession | main.py:157-190 | from a fresh tracker with all k chunks served: messages = responses = k samples per stage in chunk order, TTFD >= TTFT, no error or interruption, saved row meets the target |
| Agent.FailedSession | main.py:157-190 | from a fresh tracker with chunk n raising first: one error if it is an `Exception`, otherwise none and `entrypoint` raises; counts per stage as far as the failure, later chunks irrelevant, session still ended and saved once |
| Agent.EntrypointMeetsTarget | main.py:95-190 | the saved row reports the latency target as met whenever the tracker had no total-latency samples, whatever TARGET_LATENCY is |

## Left out

- Plugin objects (`deepgram.STT`, `openai.LLM`, `elevenlabs.TTS`,
  `cartesia.TTS`), `ctx.audio_stream()`, `ctx.send_audio` and
  `cli.run_app`: these are foreign asynchronous calls. Their outcomes and
  delays are the scripted `Chunk` values and `Run.setupOk`.
- Async scheduling and concurrency: one session runs sequentially and is
  modelled as a fold.
- Clock and date reads (`time.time`, `datetime.now().isoformat()`) and the
  `session_<epoch>` id: these are parameters of `Run`. Delays are assumed
  non-negative (`Agent.Delay`), so wall-clock steps backwards are not modelled.
- pandas, Excel files and `os.path.exists`: the sink is a sequence of
  `Summary` rows, and column types are not modelled.
- Logging, `load_dotenv`, `logging.basicConfig` and the validation report
  printed when config.py is imported (config.py:157-173).
- `float(...)`/`int(...)` parsing of environment variables, and the
  exception a malformed value raises at import. `TARGET_LATENCY` is taken as
  a `real`.
- `LIVEKIT_URL`, `MAX_CONVERSATION_DURATION`, `SAMPLE_RATE`, `CHANNELS`,
  `LOG_LEVEL` and `METRICS_FILE`: no behaviour of the modelled code depends on
  them. `entrypoint` saves to the default file name, not `METRICS_FILE`.
- The static model dictionaries and `SYSTEM_PROMPT` (config.py:36-94): these
  are constants with no behaviour.
- test_setup.py is not part of this model. Its metrics call sequence is a
  sequence of `Call`s, which `ReplayData` covers.
- The int-versus-float type of summary cells: an empty sequence's average
  is the int `0` in Python and `0.0` here, with the same value.
- MetricsTracker.Save: an exception while `df.to_excel` is writing
  (main.py:101) can leave a truncated file and lose the earlier rows; the
  model treats every failed save as leaving the sink unchanged, because the
  file format and openpyxl's partial writes are not modelled.
- A non-`Exception` raised inside `save_to_excel` (for instance a
  cancellation while saving) escapes its handler and `entrypoint`; the model
  treats `Run.saved == false` as a caught failure only.
- Agent.ValidConfigSelectsHead: the model gives `validate_config` and
  `entrypoint` one snapshot of the environment. In the code, `Config` reads
  its keys once when the class is defined (config.py:13-21, without calling
  `load_dotenv`), while `entrypoint` reads `os.getenv` on every call after
  main.py:13 has loaded `.env`, and main.py never imports config.py. The two
  can therefore see different keys.
