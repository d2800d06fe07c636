/**
 * `VoiceAgent.entrypoint` (main.py): provider selection from credential
 * presence, then the per-chunk STT -> LLM -> TTS -> send loop inside one
 * `try`, whose first exception ends the loop (and records one error when
 * it is an `Exception`), and a `finally` that ends the session and saves
 * the summary.
 *
 * The providers, the audio stream and the clock are outside the model:
 * each chunk is a scripted outcome that says how far the cycle got and
 * which (non-negative) delays were measured on the way.
 */
module Agent {
  import opened Wrappers
  import opened Config
  import opened MetricsTracker

  /** The concrete provider bound to each stage. */
  datatype Selection = Selection(stt: Provider, llm: Provider, tts: Provider) {
    function Of(s: Stage): Provider
    {
      match s
      case Stt => stt
      case Llm => llm
      case Tts => tts
    }
  }

  /**
   * The provider construction of `entrypoint`: Deepgram else OpenAI for
   * STT, Groq else OpenAI for the LLM, ElevenLabs else Cartesia else OpenAI
   * for TTS. It picks the head of the stage's priority list whenever that
   * list is non-empty, and falls back to OpenAI without checking its key.
   */
  function SelectProviders(k: Keys): (sel: Selection)
    ensures forall s: Stage :: sel.Of(s) in PriorityOrder(s)
    ensures forall s: Stage :: |ServicePriority(k).Of(s)| > 0 ==> sel.Of(s) == ServicePriority(k).Of(s)[0]
    ensures forall s: Stage :: |ServicePriority(k).Of(s)| == 0 ==> sel.Of(s) == OpenAI
    ensures sel.stt == Deepgram <==> Configured(k, Deepgram)
    ensures sel.llm == Groq <==> Configured(k, Groq)
    ensures sel.tts == ElevenLabs <==> Configured(k, ElevenLabs)
    ensures sel.tts == Cartesia <==> !Configured(k, ElevenLabs) && Configured(k, Cartesia)
  {
    var stt := if Configured(k, Deepgram) then Deepgram else OpenAI;
    var llm := if Configured(k, Groq) then Groq else OpenAI;
    var tts :=
      if Configured(k, ElevenLabs) then ElevenLabs
      else if Configured(k, Cartesia) then Cartesia
      else OpenAI;
    Selection(stt, llm, tts)
  }

  /** When the configuration validates, each selected provider heads its stage's available list. */
  lemma ValidConfigSelectsHead(c: Settings)
    requires ValidateConfig(c).valid
    ensures forall s: Stage ::
      |ValidateConfig(c).availableServices.Of(s)| > 0
      && SelectProviders(c.keys).Of(s) == ValidateConfig(c).availableServices.Of(s)[0]
  {
  }

  /** A measured delay in seconds. */
  type Delay = r: real | r >= 0.0

  /**
   * The scripted outcome of one audio chunk. `stt` is the transcription
   * delay, `llm` the time from the LLM call to its reply (TTFT), and `tts`
   * the further time until synthesis returns; TTFD is measured from the
   * LLM call, so it is `llm + tts`. `SttFails` also stands for the audio
   * stream raising when the next chunk is requested: neither records
   * anything before the exception.
   */
  datatype Chunk =
    | Served(stt: Delay, llm: Delay, tts: Delay)
    | SttFails
    | LlmFails(stt: Delay)
    | TtsFails(stt: Delay, llm: Delay)
    | SendFails(stt: Delay, llm: Delay, tts: Delay)

  /** The chunk's cycle raises an exception. */
  predicate Raises(c: Chunk)
  {
    !c.Served?
  }

  /** The calls once transcription returns: `record_stt_delay`, `record_user_message`. */
  function SttStep(stt: real): seq<Call>
  {
    [Sample(SttDelays, stt), Bump(UserMessages)]
  }

  /** The call once the LLM returns: `record_ttft`. */
  function LlmStep(llm: real): seq<Call>
  {
    [Sample(TtftDelays, llm)]
  }

  /** The calls once synthesis returns: `record_ttfd` (from the LLM call) and `record_agent_response`. */
  function TtsStep(llm: real, tts: real): seq<Call>
  {
    [Sample(TtfdDelays, llm + tts), Bump(AgentResponses)]
  }

  /** The tracker calls one cycle makes, in order, up to where it completes or raises. */
  function CycleCalls(c: Chunk): seq<Call>
  {
    match c
    case Served(s, l, t) => SttStep(s) + LlmStep(l) + TtsStep(l, t)
    case SttFails => []
    case LlmFails(s) => SttStep(s)
    case TtsFails(s, l) => SttStep(s) + LlmStep(l)
    case SendFails(s, l, t) => SttStep(s) + LlmStep(l) + TtsStep(l, t)
  }

  /**
   * The `async for` loop inside the `try`: cycles run in order, and the
   * first cycle that raises leaves the loop, so no later chunk is processed.
   */
  function LoopCalls(chunks: seq<Chunk>): seq<Call>
  {
    if |chunks| == 0 then []
    else if Raises(chunks[0]) then CycleCalls(chunks[0])
    else CycleCalls(chunks[0]) + LoopCalls(chunks[1..])
  }

  /**
   * The inputs of one session that the model takes as parameters. `caught`
   * says whether the exception the `try` block raises, if it raises, is an
   * `Exception`; when it is not (`asyncio.CancelledError`,
   * `KeyboardInterrupt`), the `except Exception` handler is skipped and the
   * exception leaves `entrypoint` after the `finally` block has run.
   */
  datatype Run = Run(
    sessionId: string,
    startClock: real,
    startStamp: string,
    setupOk: bool,
    chunks: seq<Chunk>,
    caught: bool,
    endClock: real,
    endStamp: string,
    saved: bool)

  /**
   * All tracker calls of one session: `start_session`, then the body of the
   * `try` and its handler, then the `finally` block's `end_session`.
   */
  function SessionCalls(r: Run): seq<Call>
  {
    [Start(r.sessionId, r.startClock, r.startStamp)] + TryCalls(r) + [End(r.endClock, r.endStamp)]
  }

  /** The calls of the `try` block and its `except` handler. */
  function TryCalls(r: Run): seq<Call>
  {
    TryBody(r) + Handler(r)
  }

  /** The calls the `try` block makes: none when constructing a provider raised. */
  function TryBody(r: Run): seq<Call>
  {
    if r.setupOk then LoopCalls(r.chunks) else []
  }

  /** The `except Exception` handler's `record_error`, when it runs. */
  function Handler(r: Run): seq<Call>
  {
    if SessionFails(r) && r.caught then [Bump(Errors)] else []
  }

  /** Some part of the session raised: provider construction or a chunk's cycle. */
  predicate SessionFails(r: Run)
  {
    !r.setupOk || exists i :: 0 <= i < |r.chunks| && Raises(r.chunks[i])
  }

  /** `propagates`: `entrypoint` itself raises, after its `finally` block. */
  datatype Outcome = Outcome(selection: Selection, tracker: Tracker, sink: seq<Summary>, propagates: bool)

  /**
   * One `entrypoint` run on the agent's tracker `agent` (the same tracker
   * serves every session of the agent object) and the metrics sink.
   */
  function Entrypoint(agent: Tracker, k: Keys, r: Run, sink: seq<Summary>): (o: Outcome)
    ensures o.selection == SelectProviders(k)
    ensures r.saved ==> o.sink == sink + [Summarize(o.tracker)]
    ensures !r.saved ==> o.sink == sink
    ensures o.tracker.sessionStart == Some(r.startClock)
    ensures o.tracker.metrics.sessionId == Some(r.sessionId)
    ensures o.tracker.metrics.startTime == Some(r.startStamp)
    ensures r.startClock != 0.0 ==>
      o.tracker.metrics.endTime == Some(r.endStamp)
      && o.tracker.metrics.totalDuration == r.endClock - r.startClock
    ensures r.startClock == 0.0 ==>
      o.tracker.metrics.endTime == agent.metrics.endTime
      && o.tracker.metrics.totalDuration == agent.metrics.totalDuration
    ensures o.tracker.metrics.errors == agent.metrics.errors + (if SessionFails(r) && r.caught then 1 else 0)
    ensures o.propagates <==> SessionFails(r) && !r.caught
    ensures o.tracker.metrics.interruptionsCount == agent.metrics.interruptionsCount
    ensures o.tracker.metrics.totalLatencies == agent.metrics.totalLatencies
  {
    var t := Replay(agent, SessionCalls(r));
    SessionEffect(agent, r);
    TryFacts(r);
    Outcome(SelectProviders(k), t, Save(t, sink, r.saved), SessionFails(r) && !r.caught)
  }

  /** Transcription records its delay and bumps the user-message counter, nothing else. */
  lemma SttStepFacts(stt: real)
    ensures NoSessionCalls(SttStep(stt))
    ensures forall s: Series :: Recorded(SttStep(stt), s) == if s == SttDelays then [stt] else []
    ensures forall k: Counter :: Occurrences(SttStep(stt), k) == if k == UserMessages then 1 else 0
  {
    var a := SttStep(stt);
    assert a[1..] == [Bump(UserMessages)] && a[1..][1..] == [];
    forall s: Series ensures Recorded(a, s) == if s == SttDelays then [stt] else [] {
      assert Recorded(a[1..], s) == [] + Recorded(a[1..][1..], s);
    }
    forall k: Counter ensures Occurrences(a, k) == if k == UserMessages then 1 else 0 {
      assert Occurrences(a[1..], k) == (if k == UserMessages then 1 else 0) + Occurrences(a[1..][1..], k);
    }
  }

  /** The LLM step records its delay as a TTFT sample and bumps no counter. */
  lemma LlmStepFacts(llm: real)
    ensures NoSessionCalls(LlmStep(llm))
    ensures forall s: Series :: Recorded(LlmStep(llm), s) == if s == TtftDelays then [llm] else []
    ensures forall k: Counter :: Occurrences(LlmStep(llm), k) == 0
  {
  }

  /** Synthesis records the TTFD from the LLM call and bumps the agent-response counter. */
  lemma TtsStepFacts(llm: real, tts: real)
    ensures NoSessionCalls(TtsStep(llm, tts))
    ensures forall s: Series :: Recorded(TtsStep(llm, tts), s) == if s == TtfdDelays then [llm + tts] else []
    ensures forall k: Counter :: Occurrences(TtsStep(llm, tts), k) == if k == AgentResponses then 1 else 0
  {
    var d := TtsStep(llm, tts);
    assert d[1..] == [Bump(AgentResponses)] && d[1..][1..] == [];
    forall s: Series ensures Recorded(d, s) == if s == TtfdDelays then [llm + tts] else [] {
      assert Recorded(d[1..], s) == [] + Recorded(d[1..][1..], s);
    }
    forall k: Counter ensures Occurrences(d, k) == if k == AgentResponses then 1 else 0 {
      assert Occurrences(d[1..], k) == (if k == AgentResponses then 1 else 0) + Occurrences(d[1..][1..], k);
    }
  }

  /** The `except` handler's single `record_error` records no sample and bumps only the error counter. */
  lemma HandlerFacts()
    ensures NoSessionCalls([Bump(Errors)])
    ensures Recorded([Bump(Errors)], SttDelays) == [] && Recorded([Bump(Errors)], TtftDelays) == []
    ensures Recorded([Bump(Errors)], TtfdDelays) == [] && Recorded([Bump(Errors)], TotalLatencies) == []
    ensures Occurrences([Bump(Errors)], UserMessages) == 0 && Occurrences([Bump(Errors)], AgentResponses) == 0
    ensures Occurrences([Bump(Errors)], Interruptions) == 0 && Occurrences([Bump(Errors)], Errors) == 1
  {
  }

  /** Which series each kind of cycle records into, in call order. */
  lemma CycleSamples(c: Chunk)
    ensures Recorded(CycleCalls(c), SttDelays) == if c.SttFails? then [] else [c.stt]
    ensures Recorded(CycleCalls(c), TtftDelays) ==
      if c.Served? || c.TtsFails? || c.SendFails? then [c.llm] else []
    ensures Recorded(CycleCalls(c), TtfdDelays) ==
      if c.Served? || c.SendFails? then [c.llm + c.tts] else []
    ensures Recorded(CycleCalls(c), TotalLatencies) == []
  {
    match c
    case SttFails =>
    case LlmFails(st) =>
      SttStepFacts(st);
    case TtsFails(st, l) =>
      PartialCycleSamples(st, l);
    case Served(st, l, t) =>
      FullCycleSamples(st, l, t);
    case SendFails(st, l, t) =>
      FullCycleSamples(st, l, t);
  }

  /** A cycle that fails in synthesis has recorded its STT and TTFT samples. */
  lemma PartialCycleSamples(st: real, l: real)
    ensures Recorded(SttStep(st) + LlmStep(l), SttDelays) == [st]
    ensures Recorded(SttStep(st) + LlmStep(l), TtftDelays) == [l]
    ensures Recorded(SttStep(st) + LlmStep(l), TtfdDelays) == []
    ensures Recorded(SttStep(st) + LlmStep(l), TotalLatencies) == []
  {
    SttStepFacts(st);
    LlmStepFacts(l);
    forall s: Series ensures Recorded(SttStep(st) + LlmStep(l), s) == Recorded(SttStep(st), s) + Recorded(LlmStep(l), s) {
      RecordedAppend(SttStep(st), LlmStep(l), s);
    }
  }

  /** A cycle that reaches synthesis records one sample into each of the first three series. */
  lemma FullCycleSamples(st: real, l: real, t: real)
    ensures Recorded(SttStep(st) + LlmStep(l) + TtsStep(l, t), SttDelays) == [st]
    ensures Recorded(SttStep(st) + LlmStep(l) + TtsStep(l, t), TtftDelays) == [l]
    ensures Recorded(SttStep(st) + LlmStep(l) + TtsStep(l, t), TtfdDelays) == [l + t]
    ensures Recorded(SttStep(st) + LlmStep(l) + TtsStep(l, t), TotalLatencies) == []
  {
    SttStepFacts(st);
    LlmStepFacts(l);
    TtsStepFacts(l, t);
    var a := SttStep(st);
    var b := LlmStep(l);
    var d := TtsStep(l, t);
    forall s: Series ensures Recorded(a + b + d, s) == Recorded(a, s) + Recorded(b, s) + Recorded(d, s) {
      RecordedAppend(a, b, s);
      RecordedAppend(a + b, d, s);
    }
  }

  /** Which counters each kind of cycle bumps, and that a cycle never starts or ends a session. */
  lemma CycleCounts(c: Chunk)
    ensures NoSessionCalls(CycleCalls(c))
    ensures Occurrences(CycleCalls(c), UserMessages) == if c.SttFails? then 0 else 1
    ensures Occurrences(CycleCalls(c), AgentResponses) == if c.Served? || c.SendFails? then 1 else 0
    ensures Occurrences(CycleCalls(c), Interruptions) == 0
    ensures Occurrences(CycleCalls(c), Errors) == 0
  {
    match c
    case SttFails =>
    case LlmFails(st) =>
      SttStepFacts(st);
    case TtsFails(st, l) =>
      SttStepFacts(st);
      LlmStepFacts(l);
      NoSessionCallsAppend(SttStep(st), LlmStep(l));
      forall k: Counter ensures Occurrences(SttStep(st) + LlmStep(l), k) == Occurrences(SttStep(st), k) + Occurrences(LlmStep(l), k) {
        OccurrencesAppend(SttStep(st), LlmStep(l), k);
      }
    case Served(st, l, t) =>
      FullCycleCounts(st, l, t);
    case SendFails(st, l, t) =>
      FullCycleCounts(st, l, t);
  }

  /** A cycle that reaches synthesis bumps the user and agent counters once each. */
  lemma FullCycleCounts(st: real, l: real, t: real)
    ensures NoSessionCalls(SttStep(st) + LlmStep(l) + TtsStep(l, t))
    ensures forall k: Counter ::
              Occurrences(SttStep(st) + LlmStep(l) + TtsStep(l, t), k) == if k == UserMessages || k == AgentResponses then 1 else 0
  {
    SttStepFacts(st);
    LlmStepFacts(l);
    TtsStepFacts(l, t);
    var a := SttStep(st);
    var b := LlmStep(l);
    var d := TtsStep(l, t);
    NoSessionCallsAppend(a, b);
    NoSessionCallsAppend(a + b, d);
    forall k: Counter ensures Occurrences(a + b + d, k) == Occurrences(a, k) + Occurrences(b, k) + Occurrences(d, k) {
      OccurrencesAppend(a, b, k);
      OccurrencesAppend(a + b, d, k);
    }
  }

  /** One iteration of the loop, seen through a single series. */
  lemma LoopSeriesStep(chunks: seq<Chunk>, s: Series)
    requires |chunks| > 0
    ensures Recorded(LoopCalls(chunks), s) == Recorded(CycleCalls(chunks[0]), s) +
      (if Raises(chunks[0]) then [] else Recorded(LoopCalls(chunks[1..]), s))
  {
    if !Raises(chunks[0]) {
      RecordedAppend(CycleCalls(chunks[0]), LoopCalls(chunks[1..]), s);
    }
  }

  /** One iteration of the loop, seen through a single counter: a raising cycle ends it. */
  lemma LoopCounterStep(chunks: seq<Chunk>, k: Counter)
    requires |chunks| > 0
    ensures Occurrences(LoopCalls(chunks), k) == Occurrences(CycleCalls(chunks[0]), k) +
      (if Raises(chunks[0]) then 0 else Occurrences(LoopCalls(chunks[1..]), k))
  {
    if !Raises(chunks[0]) {
      OccurrencesAppend(CycleCalls(chunks[0]), LoopCalls(chunks[1..]), k);
    }
  }

  /** The loop never starts or ends a session and records no interruption, error or total latency. */
  lemma {:induction false} LoopKinds(chunks: seq<Chunk>)
    ensures NoSessionCalls(LoopCalls(chunks))
    ensures Occurrences(LoopCalls(chunks), Interruptions) == 0
    ensures Occurrences(LoopCalls(chunks), Errors) == 0
    ensures Recorded(LoopCalls(chunks), TotalLatencies) == []
  {
    if |chunks| > 0 {
      var c := chunks[0];
      CycleSamples(c);
      CycleCounts(c);
      LoopSeriesStep(chunks, TotalLatencies);
      LoopCounterStep(chunks, Interruptions);
      LoopCounterStep(chunks, Errors);
      if !Raises(c) {
        LoopKinds(chunks[1..]);
        NoSessionCallsAppend(CycleCalls(c), LoopCalls(chunks[1..]));
      }
    }
  }

  /** Across the loop, user messages pair with STT samples, at most one per chunk. */
  lemma {:induction false} LoopUserMessages(chunks: seq<Chunk>)
    ensures Occurrences(LoopCalls(chunks), UserMessages) == |Recorded(LoopCalls(chunks), SttDelays)|
    ensures |Recorded(LoopCalls(chunks), SttDelays)| <= |chunks|
  {
    if |chunks| > 0 {
      var c := chunks[0];
      CycleSamples(c);
      CycleCounts(c);
      LoopSeriesStep(chunks, SttDelays);
      LoopCounterStep(chunks, UserMessages);
      if !Raises(c) {
        LoopUserMessages(chunks[1..]);
      }
    }
  }

  /** Across the loop, agent responses pair with TTFD samples. */
  lemma {:induction false} LoopAgentResponses(chunks: seq<Chunk>)
    ensures Occurrences(LoopCalls(chunks), AgentResponses) == |Recorded(LoopCalls(chunks), TtfdDelays)|
  {
    if |chunks| > 0 {
      var c := chunks[0];
      CycleSamples(c);
      CycleCounts(c);
      LoopSeriesStep(chunks, TtfdDelays);
      LoopCounterStep(chunks, AgentResponses);
      if !Raises(c) {
        LoopAgentResponses(chunks[1..]);
      }
    }
  }

  /**
   * A cycle records its TTFD only after its TTFT, and its TTFT only after
   * its STT delay, so across the loop the later stages never have more
   * samples than the earlier ones.
   */
  lemma {:induction false} LoopStageOrder(chunks: seq<Chunk>)
    ensures |Recorded(LoopCalls(chunks), TtfdDelays)| <= |Recorded(LoopCalls(chunks), TtftDelays)|
    ensures |Recorded(LoopCalls(chunks), TtftDelays)| <= |Recorded(LoopCalls(chunks), SttDelays)|
  {
    if |chunks| > 0 {
      CycleSamples(chunks[0]);
      LoopSeriesStep(chunks, SttDelays);
      LoopSeriesStep(chunks, TtftDelays);
      LoopSeriesStep(chunks, TtfdDelays);
      if !Raises(chunks[0]) {
        LoopStageOrder(chunks[1..]);
      }
    }
  }

  /**
   * Every TTFD sample of the loop is at least the TTFT sample of the same
   * cycle, since both are measured from the LLM call.
   */
  lemma {:induction false} LoopTtfdAfterTtft(chunks: seq<Chunk>)
    ensures |Recorded(LoopCalls(chunks), TtfdDelays)| <= |Recorded(LoopCalls(chunks), TtftDelays)|
    ensures forall i :: 0 <= i < |Recorded(LoopCalls(chunks), TtfdDelays)| ==>
      Recorded(LoopCalls(chunks), TtftDelays)[i] <= Recorded(LoopCalls(chunks), TtfdDelays)[i]
  {
    LoopStageOrder(chunks);
    if |chunks| > 0 {
      var c := chunks[0];
      CycleSamples(c);
      LoopSeriesStep(chunks, TtftDelays);
      LoopSeriesStep(chunks, TtfdDelays);
      var ft := Recorded(LoopCalls(chunks), TtftDelays);
      var fd := Recorded(LoopCalls(chunks), TtfdDelays);
      if !Raises(c) {
        LoopTtfdAfterTtft(chunks[1..]);
        var tt := Recorded(LoopCalls(chunks[1..]), TtftDelays);
        var td := Recorded(LoopCalls(chunks[1..]), TtfdDelays);
        assert ft == [c.llm] + tt && fd == [c.llm + c.tts] + td;
        forall i | 0 <= i < |fd| ensures ft[i] <= fd[i] {
          if i > 0 {
            assert ft[i] == tt[i - 1] && fd[i] == td[i - 1];
          }
        }
      }
    }
  }

  /**
   * What the `try` block and its handler record besides the cycles'
   * samples: one error exactly when something raised an `Exception`.
   */
  lemma TryFacts(r: Run)
    ensures NoSessionCalls(TryCalls(r))
    ensures Occurrences(TryCalls(r), Errors) == if SessionFails(r) && r.caught then 1 else 0
    ensures Occurrences(TryCalls(r), Interruptions) == 0
    ensures Recorded(TryCalls(r), TotalLatencies) == []
  {
    if r.setupOk {
      LoopKinds(r.chunks);
    }
    HandlerFacts();
    TrySeries(r, TotalLatencies);
    TryCounter(r, Interruptions);
    OccurrencesAppend(TryBody(r), Handler(r), Errors);
    NoSessionCallsAppend(TryBody(r), Handler(r));
  }

  /** The handler adds no sample to series `s`. */
  lemma TrySeries(r: Run, s: Series)
    ensures Recorded(TryCalls(r), s) == Recorded(TryBody(r), s)
  {
    var h := Handler(r);
    assert |h| > 0 ==> h[1..] == [];
    RecordedAppend(TryBody(r), h, s);
  }

  /** The handler bumps no counter but the error counter. */
  lemma TryCounter(r: Run, k: Counter)
    requires k != Errors
    ensures Occurrences(TryCalls(r), k) == Occurrences(TryBody(r), k)
  {
    var h := Handler(r);
    assert |h| > 0 ==> h[1..] == [];
    OccurrencesAppend(TryBody(r), h, k);
  }

  /** The first cycle that raises ends the loop: no later chunk is processed. */
  lemma LoopStopsAtFirstFailure(chunks: seq<Chunk>, n: nat)
    requires n < |chunks|
    requires forall i :: 0 <= i < n ==> !Raises(chunks[i])
    requires Raises(chunks[n])
    ensures LoopCalls(chunks) == LoopCalls(chunks[..n]) + CycleCalls(chunks[n])
    ensures LoopCalls(chunks) == LoopCalls(chunks[..n + 1])
  {
    var kept := chunks[..n + 1];
    assert kept[..n] == chunks[..n] && kept[n] == chunks[n];
    assert forall i :: 0 <= i < n ==> kept[i] == chunks[i];
    LoopFirstFailure(chunks, n);
    LoopFirstFailure(kept, n);
  }

  /** The calls of the loop up to and including the first raising cycle. */
  lemma {:induction false} LoopFirstFailure(chunks: seq<Chunk>, n: nat)
    requires n < |chunks|
    requires forall i :: 0 <= i < n ==> !Raises(chunks[i])
    requires Raises(chunks[n])
    ensures LoopCalls(chunks) == LoopCalls(chunks[..n]) + CycleCalls(chunks[n])
  {
    var f := CycleCalls(chunks[n]);
    if n == 0 {
      assert chunks[..0] == [];
      assert LoopCalls(chunks) == f;
    } else {
      var rest := chunks[1..];
      LoopFirstFailure(rest, n - 1);
      assert rest[n - 1] == chunks[n];
      var a := CycleCalls(chunks[0]);
      var l := LoopCalls(rest[..n - 1]);
      assert LoopCalls(rest) == l + f;
      assert LoopCalls(chunks) == a + (l + f);
      assert chunks[..n][0] == chunks[0] && chunks[..n][1..] == rest[..n - 1];
      assert LoopCalls(chunks[..n]) == a + l;
      assert a + (l + f) == (a + l) + f;
    }
  }

  /** When every cycle completes, each sample sequence holds one entry per chunk, in chunk order. */
  lemma LoopAllServed(chunks: seq<Chunk>)
    requires forall i :: 0 <= i < |chunks| ==> chunks[i].Served?
    ensures |Recorded(LoopCalls(chunks), SttDelays)| == |chunks|
    ensures |Recorded(LoopCalls(chunks), TtftDelays)| == |chunks|
    ensures |Recorded(LoopCalls(chunks), TtfdDelays)| == |chunks|
    ensures forall i :: 0 <= i < |chunks| ==>
      && Recorded(LoopCalls(chunks), SttDelays)[i] == chunks[i].stt
      && Recorded(LoopCalls(chunks), TtftDelays)[i] == chunks[i].llm
      && Recorded(LoopCalls(chunks), TtfdDelays)[i] == chunks[i].llm + chunks[i].tts
    ensures Occurrences(LoopCalls(chunks), UserMessages) == |chunks|
    ensures Occurrences(LoopCalls(chunks), AgentResponses) == |chunks|
    ensures Occurrences(LoopCalls(chunks), Errors) == 0
  {
    LoopUserMessages(chunks);
    LoopAgentResponses(chunks);
    LoopKinds(chunks);
    LoopServedSeries(chunks, SttDelays);
    LoopServedSeries(chunks, TtftDelays);
    LoopServedSeries(chunks, TtfdDelays);
  }

  /** The sample a completed cycle records into series `s`. */
  function ServedSample(c: Chunk, s: Series): real
    requires c.Served?
    requires s != TotalLatencies
  {
    match s
    case SttDelays => c.stt
    case TtftDelays => c.llm
    case TtfdDelays => c.llm + c.tts
  }

  /** A completed cycle records exactly its own sample into each of the first three series. */
  lemma ServedCycleSample(c: Chunk, s: Series)
    requires c.Served?
    requires s != TotalLatencies
    ensures Recorded(CycleCalls(c), s) == [ServedSample(c, s)]
  {
    FullCycleSamples(c.stt, c.llm, c.tts);
    assert CycleCalls(c) == SttStep(c.stt) + LlmStep(c.llm) + TtsStep(c.llm, c.tts);
  }

  /** Over completed cycles, series `s` holds one sample per chunk, in chunk order. */
  lemma {:induction false} LoopServedSeries(chunks: seq<Chunk>, s: Series)
    requires forall i :: 0 <= i < |chunks| ==> chunks[i].Served?
    requires s != TotalLatencies
    ensures |Recorded(LoopCalls(chunks), s)| == |chunks|
    ensures forall i :: 0 <= i < |chunks| ==> Recorded(LoopCalls(chunks), s)[i] == ServedSample(chunks[i], s)
  {
    if |chunks| > 0 {
      var c := chunks[0];
      var rest := chunks[1..];
      assert forall i :: 0 <= i < |rest| ==> rest[i] == chunks[i + 1];
      LoopServedSeries(rest, s);
      ServedCycleSample(c, s);
      assert LoopCalls(chunks) == CycleCalls(c) + LoopCalls(rest);
      RecordedAppend(CycleCalls(c), LoopCalls(rest), s);
      var all := Recorded(LoopCalls(chunks), s);
      var later := Recorded(LoopCalls(rest), s);
      assert all == [ServedSample(c, s)] + later;
      forall i | 0 <= i < |chunks| ensures all[i] == ServedSample(chunks[i], s) {
        if i > 0 {
          assert all[i] == later[i - 1];
        }
      }
    }
  }

  /**
   * When cycle `n` is the first to raise, the `n` completed cycles each
   * left their records, and the failing cycle keeps the records of the
   * stages before its failure.
   */
  lemma LoopFailureCounts(chunks: seq<Chunk>, n: nat)
    requires n < |chunks|
    requires forall i :: 0 <= i < n ==> !Raises(chunks[i])
    requires Raises(chunks[n])
    ensures |Recorded(LoopCalls(chunks), SttDelays)| == n + (if chunks[n].SttFails? then 0 else 1)
    ensures |Recorded(LoopCalls(chunks), TtftDelays)| ==
      n + (if chunks[n].TtsFails? || chunks[n].SendFails? then 1 else 0)
    ensures |Recorded(LoopCalls(chunks), TtfdDelays)| == n + (if chunks[n].SendFails? then 1 else 0)
  {
    LoopStopsAtFirstFailure(chunks, n);
    var prefix := chunks[..n];
    assert forall i :: 0 <= i < |prefix| ==> prefix[i] == chunks[i];
    LoopAllServed(prefix);
    CycleSamples(chunks[n]);
    var a := LoopCalls(prefix);
    var b := CycleCalls(chunks[n]);
    RecordedAppend(a, b, SttDelays);
    RecordedAppend(a, b, TtftDelays);
    RecordedAppend(a, b, TtfdDelays);
  }

  /**
   * The session's calls: `start_session` exactly once and first,
   * `end_session` exactly once and last, on every path.
   */
  lemma SessionBracketed(r: Run)
    ensures |SessionCalls(r)| >= 2
    ensures SessionCalls(r)[0] == Start(r.sessionId, r.startClock, r.startStamp)
    ensures SessionCalls(r)[|SessionCalls(r)| - 1] == End(r.endClock, r.endStamp)
    ensures forall i :: 0 < i < |SessionCalls(r)| - 1 ==> SessionCalls(r)[i].Sample? || SessionCalls(r)[i].Bump?
  {
    var body := TryCalls(r);
    TryFacts(r);
    var calls := SessionCalls(r);
    forall i | 0 < i < |calls| - 1 ensures calls[i].Sample? || calls[i].Bump? {
      assert calls[i] == body[i - 1];
    }
  }

  /** The tracker after a session: the start, the `try` block's data, then the end. */
  lemma SessionEffect(agent: Tracker, r: Run)
    ensures var t := Replay(agent, SessionCalls(r));
      && t.sessionStart == Some(r.startClock)
      && t.metrics.sessionId == Some(r.sessionId)
      && t.metrics.startTime == Some(r.startStamp)
      && (r.startClock != 0.0 ==>
            t.metrics.endTime == Some(r.endStamp) && t.metrics.totalDuration == r.endClock - r.startClock)
      && (r.startClock == 0.0 ==>
            t.metrics.endTime == agent.metrics.endTime && t.metrics.totalDuration == agent.metrics.totalDuration)
      && (forall s: Series :: Samples(t.metrics, s) == Samples(agent.metrics, s) + Recorded(TryCalls(r), s))
      && (forall c: Counter :: Count(t.metrics, c) == Count(agent.metrics, c) + Occurrences(TryCalls(r), c))
  {
    var body := TryCalls(r);
    var first: seq<Call> := [Start(r.sessionId, r.startClock, r.startStamp)];
    var last: seq<Call> := [End(r.endClock, r.endStamp)];
    TryFacts(r);
    ReplayAppend(agent, first + body, last);
    ReplayAppend(agent, first, body);
    var t1 := Replay(agent, first);
    assert first[1..] == [];
    assert t1 == StartSession(agent, r.sessionId, r.startClock, r.startStamp);
    var t2 := Replay(t1, body);
    ReplayKeepsSession(t1, body);
    ReplayData(t1, body);
    var t3 := Replay(t2, last);
    assert last[1..] == [];
    assert t3 == EndSession(t2, r.endClock, r.endStamp);
  }

  /**
   * On any tracker, a session only appends samples, and keeps user messages
   * paired with STT samples and agent responses with TTFD samples.
   */
  lemma SessionAppendsPairedSamples(agent: Tracker, k: Keys, r: Run, sink: seq<Summary>)
    ensures var m := Entrypoint(agent, k, r, sink).tracker.metrics;
      var a := agent.metrics;
      && |a.sttDelays| <= |m.sttDelays| && m.sttDelays[..|a.sttDelays|] == a.sttDelays
      && |a.ttftDelays| <= |m.ttftDelays| && m.ttftDelays[..|a.ttftDelays|] == a.ttftDelays
      && |a.ttfdDelays| <= |m.ttfdDelays| && m.ttfdDelays[..|a.ttfdDelays|] == a.ttfdDelays
      && m.userMessages - a.userMessages == |m.sttDelays| - |a.sttDelays|
      && m.agentResponses - a.agentResponses == |m.ttfdDelays| - |a.ttfdDelays|
  {
    SessionEffect(agent, r);
    TrySeries(r, SttDelays);
    TrySeries(r, TtftDelays);
    TrySeries(r, TtfdDelays);
    TryCounter(r, UserMessages);
    TryCounter(r, AgentResponses);
    var body := TryBody(r);
    if r.setupOk {
      LoopUserMessages(r.chunks);
      LoopAgentResponses(r.chunks);
    }
    var m := Entrypoint(agent, k, r, sink).tracker.metrics;
    var a := agent.metrics;
    assert m.sttDelays == a.sttDelays + Recorded(body, SttDelays);
    assert m.ttftDelays == a.ttftDelays + Recorded(body, TtftDelays);
    assert m.ttfdDelays == a.ttfdDelays + Recorded(body, TtfdDelays);
    assert m.userMessages == a.userMessages + Occurrences(body, UserMessages);
    assert m.agentResponses == a.agentResponses + Occurrences(body, AgentResponses);
  }

  /**
   * On any tracker, every TTFD sample a session adds is at least the TTFT
   * sample its cycle added, and it adds no more TTFD than TTFT samples.
   */
  lemma SessionTtfdAfterTtft(agent: Tracker, k: Keys, r: Run, sink: seq<Summary>)
    ensures var m := Entrypoint(agent, k, r, sink).tracker.metrics;
      var a := agent.metrics;
      && |a.ttftDelays| <= |m.ttftDelays| && |a.ttfdDelays| <= |m.ttfdDelays|
      && (var addedTtft := m.ttftDelays[|a.ttftDelays|..];
          var addedTtfd := m.ttfdDelays[|a.ttfdDelays|..];
          && |addedTtfd| <= |addedTtft|
          && forall i :: 0 <= i < |addedTtfd| ==> addedTtft[i] <= addedTtfd[i])
  {
    SessionEffect(agent, r);
    TrySeries(r, TtftDelays);
    TrySeries(r, TtfdDelays);
    var body := TryBody(r);
    if r.setupOk {
      LoopTtfdAfterTtft(r.chunks);
    }
    var m := Entrypoint(agent, k, r, sink).tracker.metrics;
    var a := agent.metrics;
    assert m.ttftDelays == a.ttftDelays + Recorded(body, TtftDelays);
    assert m.ttfdDelays == a.ttfdDelays + Recorded(body, TtfdDelays);
    assert m.ttftDelays[|a.ttftDelays|..] == Recorded(body, TtftDelays);
    assert m.ttfdDelays[|a.ttfdDelays|..] == Recorded(body, TtfdDelays);
  }

  /**
   * A session on a fresh tracker whose chunks are all served: one user
   * message, one agent response and one sample per stage for each chunk, in
   * chunk order; no error, no interruption, and the saved row reports the
   * latency target as met.
   */
  lemma ServedSession(k: Keys, r: Run, sink: seq<Summary>)
    requires r.setupOk
    requires forall i :: 0 <= i < |r.chunks| ==> r.chunks[i].Served?
    ensures var o := Entrypoint(NewTracker(), k, r, sink);
      var m := o.tracker.metrics;
      && m.userMessages == |r.chunks| && m.agentResponses == |r.chunks|
      && |m.sttDelays| == |r.chunks| && |m.ttftDelays| == |r.chunks| && |m.ttfdDelays| == |r.chunks|
      && (forall i :: 0 <= i < |r.chunks| ==>
            && m.sttDelays[i] == r.chunks[i].stt
            && m.ttftDelays[i] == r.chunks[i].llm
            && m.ttfdDelays[i] == r.chunks[i].llm + r.chunks[i].tts
            && m.ttftDelays[i] <= m.ttfdDelays[i])
      && m.interruptionsCount == 0 && m.errors == 0
      && (r.saved ==> o.sink[|sink|].targetMet)
  {
    var t0 := NewTracker();
    SessionEffect(t0, r);
    LoopAllServed(r.chunks);
    var o := Entrypoint(t0, k, r, sink);
    assert !SessionFails(r);
    var m := o.tracker.metrics;
    TrySeries(r, SttDelays);
    TrySeries(r, TtftDelays);
    TrySeries(r, TtfdDelays);
    TryCounter(r, UserMessages);
    TryCounter(r, AgentResponses);
    var body := TryBody(r);
    assert m.sttDelays == [] + Recorded(body, SttDelays);
    assert m.ttftDelays == [] + Recorded(body, TtftDelays);
    assert m.ttfdDelays == [] + Recorded(body, TtfdDelays);
    assert m.userMessages == 0 + Occurrences(body, UserMessages);
    assert m.agentResponses == 0 + Occurrences(body, AgentResponses);
    NoLatencySamplesMeetTarget(o.tracker);
  }

  /**
   * A session on a fresh tracker whose chunk `n` is the first to raise:
   * one error when the exception is an `Exception` and none otherwise, in
   * which case it leaves `entrypoint`; chunks after `n` are never processed,
   * the `n` completed cycles and the stages of chunk `n` before its failure
   * keep their records, and the session is still ended and saved.
   */
  lemma FailedSession(k: Keys, r: Run, sink: seq<Summary>, n: nat)
    requires r.setupOk
    requires n < |r.chunks|
    requires forall i :: 0 <= i < n ==> r.chunks[i].Served?
    requires Raises(r.chunks[n])
    ensures var o := Entrypoint(NewTracker(), k, r, sink);
      var m := o.tracker.metrics;
      var c := r.chunks[n];
      && m.errors == (if r.caught then 1 else 0) && m.interruptionsCount == 0
      && (o.propagates <==> !r.caught)
      && m.userMessages == |m.sttDelays| == n + (if c.SttFails? then 0 else 1)
      && |m.ttftDelays| == n + (if c.TtsFails? || c.SendFails? then 1 else 0)
      && m.agentResponses == |m.ttfdDelays| == n + (if c.SendFails? then 1 else 0)
      && o == Entrypoint(NewTracker(), k, r.(chunks := r.chunks[..n + 1]), sink)
      && (r.startClock != 0.0 ==> m.endTime == Some(r.endStamp))
      && |o.sink| == |sink| + (if r.saved then 1 else 0)
  {
    var t0 := NewTracker();
    var r' := r.(chunks := r.chunks[..n + 1]);
    LoopStopsAtFirstFailure(r.chunks, n);
    LoopFailureCounts(r.chunks, n);
    LoopUserMessages(r.chunks);
    LoopAgentResponses(r.chunks);
    assert r'.chunks[n] == r.chunks[n];
    assert SessionFails(r) && SessionFails(r');
    assert TryBody(r) == TryBody(r') && Handler(r) == Handler(r');
    assert SessionCalls(r) == SessionCalls(r');
    SessionEffect(t0, r);
    var o := Entrypoint(t0, k, r, sink);
    var m := o.tracker.metrics;
    TrySeries(r, SttDelays);
    TrySeries(r, TtftDelays);
    TrySeries(r, TtfdDelays);
    TryCounter(r, UserMessages);
    TryCounter(r, AgentResponses);
    var body := TryBody(r);
    assert m.sttDelays == [] + Recorded(body, SttDelays);
    assert m.ttftDelays == [] + Recorded(body, TtftDelays);
    assert m.ttfdDelays == [] + Recorded(body, TtfdDelays);
    assert m.userMessages == 0 + Occurrences(body, UserMessages);
    assert m.agentResponses == 0 + Occurrences(body, AgentResponses);
  }

  /**
   * `entrypoint` never records a total latency, so on a tracker without
   * total-latency samples the saved row always reports the target as met,
   * whatever `TARGET_LATENCY` is.
   */
  lemma EntrypointMeetsTarget(agent: Tracker, k: Keys, r: Run, sink: seq<Summary>)
    requires |agent.metrics.totalLatencies| == 0
    requires r.saved
    ensures Entrypoint(agent, k, r, sink).sink[|sink|].targetMet
    ensures Entrypoint(agent, k, r, sink).sink[|sink|].avgLatency == 0.0
  {
    NoLatencySamplesMeetTarget(Entrypoint(agent, k, r, sink).tracker);
  }
}
