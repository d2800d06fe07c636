/**
 * Provider priority and configuration validation (config.py).
 *
 * The configuration is the handful of credentials read from the environment
 * plus the target latency. A credential counts as present exactly when
 * Python's truthiness accepts it: it is set and it is not the empty string.
 */
module Config {
  import opened Wrappers

  /** The credentials the validator and the provider selection look at. */
  datatype Keys = Keys(
    livekitKey: Option<string>,
    livekitSecret: Option<string>,
    deepgram: Option<string>,
    openai: Option<string>,
    groq: Option<string>,
    elevenlabs: Option<string>,
    cartesia: Option<string>)

  /** Everything `validate_config` reads: the credentials and `TARGET_LATENCY` (seconds). */
  datatype Settings = Settings(keys: Keys, targetLatency: real)

  /** Value of `TARGET_LATENCY` when the environment does not set it. */
  const DefaultTargetLatency: real := 2.0

  /** Target latencies strictly above this many seconds draw a warning. */
  const LatencyWarningThreshold: real := 3.0

  /** Python truthiness of an optional environment string. */
  predicate Present(k: Option<string>)
  {
    k.Some? && |k.value| > 0
  }

  /** Both LiveKit credentials are present. */
  predicate LiveKitConfigured(k: Keys)
  {
    Present(k.livekitKey) && Present(k.livekitSecret)
  }

  datatype Stage = Stt | Llm | Tts

  /** The stages in the order the priority dictionary lists them. */
  const Stages: seq<Stage> := [Stt, Llm, Tts]

  /** `service_type.upper()` for the three dictionary keys. */
  function StageLabel(s: Stage): string
  {
    match s
    case Stt => "STT"
    case Llm => "LLM"
    case Tts => "TTS"
  }

  datatype Provider = Deepgram | OpenAI | Groq | ElevenLabs | Cartesia

  /** The credential that enables a provider; OpenAI's key serves all three stages. */
  function KeyFor(k: Keys, p: Provider): Option<string>
  {
    match p
    case Deepgram => k.deepgram
    case OpenAI => k.openai
    case Groq => k.groq
    case ElevenLabs => k.elevenlabs
    case Cartesia => k.cartesia
  }

  predicate Configured(k: Keys, p: Provider)
  {
    Present(KeyFor(k, p))
  }

  /**
   * The fixed preference order of each stage, chosen on performance and
   * availability: for the LLM, Groq for speed and OpenAI as the fallback.
   */
  function PriorityOrder(s: Stage): seq<Provider>
  {
    match s
    case Stt => [Deepgram, OpenAI]
    case Llm => [Groq, OpenAI]
    case Tts => [ElevenLabs, Cartesia, OpenAI]
  }

  /** The ordered provider list of each stage. */
  datatype Priorities = Priorities(stt: seq<Provider>, llm: seq<Provider>, tts: seq<Provider>) {
    function Of(s: Stage): seq<Provider>
    {
      match s
      case Stt => stt
      case Llm => llm
      case Tts => tts
    }
  }

  /** Reference definition: the providers of `order` whose key is present, in order. */
  function KeepConfigured(order: seq<Provider>, k: Keys): seq<Provider>
  {
    if |order| == 0 then []
    else if Configured(k, order[0]) then [order[0]] + KeepConfigured(order[1..], k)
    else KeepConfigured(order[1..], k)
  }

  /** One conditional `append` of `get_service_priority`. */
  function AppendIfConfigured(list: seq<Provider>, k: Keys, p: Provider): seq<Provider>
  {
    if Configured(k, p) then list + [p] else list
  }

  /**
   * `get_service_priority`: each stage list is built by the source's
   * sequence of guarded appends; the contract ties each list to the
   * filter of the stage's fixed order.
   */
  function ServicePriority(k: Keys): (p: Priorities)
    ensures forall s: Stage :: p.Of(s) == KeepConfigured(PriorityOrder(s), k)
  {
    var stt := AppendIfConfigured(AppendIfConfigured([], k, Deepgram), k, OpenAI);
    var llm := AppendIfConfigured(AppendIfConfigured([], k, Groq), k, OpenAI);
    var tts := AppendIfConfigured(AppendIfConfigured(AppendIfConfigured([], k, ElevenLabs), k, Cartesia), k, OpenAI);
    GuardedAppends(k, Deepgram, OpenAI);
    GuardedAppends(k, Groq, OpenAI);
    GuardedAppends(k, ElevenLabs, Cartesia);
    KeepConfiguredSnoc([ElevenLabs, Cartesia], OpenAI, k);
    assert [ElevenLabs, Cartesia] + [OpenAI] == PriorityOrder(Tts);
    Priorities(stt, llm, tts)
  }

  /** Filtering an order extended by one provider is the guarded append of that provider. */
  lemma {:induction false} KeepConfiguredSnoc(order: seq<Provider>, p: Provider, k: Keys)
    ensures KeepConfigured(order + [p], k) == AppendIfConfigured(KeepConfigured(order, k), k, p)
  {
    if |order| == 0 {
      assert order + [p] == [p];
      assert [p][1..] == [];
    } else {
      KeepConfiguredSnoc(order[1..], p, k);
      assert (order + [p])[0] == order[0];
      assert (order + [p])[1..] == order[1..] + [p];
    }
  }

  /** Two guarded appends onto an empty list filter the two-provider order. */
  lemma GuardedAppends(k: Keys, a: Provider, b: Provider)
    ensures KeepConfigured([a, b], k) == AppendIfConfigured(AppendIfConfigured([], k, a), k, b)
  {
    KeepConfiguredSnoc([], a, k);
    KeepConfiguredSnoc([a], b, k);
    assert [] + [a] == [a] && [a] + [b] == [a, b];
  }

  /** `a` can be obtained from `b` by deleting elements. */
  predicate IsSubsequence(a: seq<Provider>, b: seq<Provider>)
  {
    if |a| == 0 then true
    else if |b| == 0 then false
    else if a[0] == b[0] then IsSubsequence(a[1..], b[1..])
    else IsSubsequence(a, b[1..])
  }

  predicate NoDuplicates(a: seq<Provider>)
  {
    forall i, j :: 0 <= i < j < |a| ==> a[i] != a[j]
  }

  lemma {:induction false} KeepConfiguredMembers(order: seq<Provider>, k: Keys)
    ensures forall p :: p in KeepConfigured(order, k) <==> p in order && Configured(k, p)
  {
    if |order| > 0 {
      KeepConfiguredMembers(order[1..], k);
      assert order == [order[0]] + order[1..];
    }
  }

  lemma {:induction false} KeepConfiguredIsSubsequence(order: seq<Provider>, k: Keys)
    ensures IsSubsequence(KeepConfigured(order, k), order)
  {
    if |order| > 0 {
      KeepConfiguredIsSubsequence(order[1..], k);
      var rest := KeepConfigured(order[1..], k);
      if Configured(k, order[0]) {
        assert ([order[0]] + rest)[1..] == rest;
      } else {
        SubsequenceOfTail(rest, order);
      }
    }
  }

  /** A subsequence of a tail is a subsequence of the whole sequence. */
  lemma {:induction false} SubsequenceOfTail(a: seq<Provider>, b: seq<Provider>)
    requires |b| > 0
    requires IsSubsequence(a, b[1..])
    ensures IsSubsequence(a, b)
    decreases |a| + |b|
  {
    if |a| > 0 && a[0] == b[0] {
      // Matching the head of b: a[1..] is a subsequence of b[1..] because a is.
      SubsequenceDropHead(a, b[1..]);
    }
  }

  /** Dropping the head of a subsequence keeps it a subsequence. */
  lemma {:induction false} SubsequenceDropHead(a: seq<Provider>, b: seq<Provider>)
    requires |a| > 0
    requires IsSubsequence(a, b)
    ensures IsSubsequence(a[1..], b)
    decreases |a| + |b|
  {
    if |b| > 0 {
      if a[0] == b[0] {
        SubsequenceOfTail(a[1..], b);
      } else {
        SubsequenceDropHead(a, b[1..]);
        SubsequenceOfTail(a[1..], b);
      }
    }
  }

  lemma {:induction false} KeepConfiguredNoDuplicates(order: seq<Provider>, k: Keys)
    requires NoDuplicates(order)
    ensures NoDuplicates(KeepConfigured(order, k))
  {
    if |order| > 0 {
      assert NoDuplicates(order[1..]) by {
        forall i, j | 0 <= i < j < |order[1..]|
          ensures order[1..][i] != order[1..][j]
        {
          assert order[1..][i] == order[i + 1] && order[1..][j] == order[j + 1];
        }
      }
      KeepConfiguredNoDuplicates(order[1..], k);
      KeepConfiguredMembers(order[1..], k);
      var rest := KeepConfigured(order[1..], k);
      if Configured(k, order[0]) {
        assert order[0] !in order[1..] by {
          forall i | 0 <= i < |order[1..]| ensures order[1..][i] != order[0] {
            assert order[1..][i] == order[i + 1];
          }
        }
        assert order[0] !in rest;
        var r := [order[0]] + rest;
        forall i, j | 0 <= i < j < |r| ensures r[i] != r[j] {
          if i == 0 {
            assert r[j] == rest[j - 1];
          } else {
            assert r[i] == rest[i - 1] && r[j] == rest[j - 1];
          }
        }
      }
    }
  }

  /** A provider is listed for a stage iff it belongs to the stage's order and its key is present. */
  lemma PriorityMembers(k: Keys, s: Stage)
    ensures forall p :: p in ServicePriority(k).Of(s) <==> p in PriorityOrder(s) && Configured(k, p)
  {
    KeepConfiguredMembers(PriorityOrder(s), k);
  }

  /** Each stage list keeps the stage's fixed order and lists no provider twice. */
  lemma PriorityKeepsOrder(k: Keys, s: Stage)
    ensures IsSubsequence(ServicePriority(k).Of(s), PriorityOrder(s))
    ensures NoDuplicates(ServicePriority(k).Of(s))
  {
    KeepConfiguredIsSubsequence(PriorityOrder(s), k);
    KeepConfiguredNoDuplicates(PriorityOrder(s), k);
  }

  /** A filtered order is non-empty iff some provider of the order is configured. */
  lemma {:induction false} KeepConfiguredNonEmpty(order: seq<Provider>, k: Keys)
    ensures |KeepConfigured(order, k)| > 0 <==> exists i :: 0 <= i < |order| && Configured(k, order[i])
  {
    if |order| > 0 {
      KeepConfiguredNonEmpty(order[1..], k);
      if exists i :: 0 <= i < |order[1..]| && Configured(k, order[1..][i]) {
        var i :| 0 <= i < |order[1..]| && Configured(k, order[1..][i]);
        assert order[i + 1] == order[1..][i];
      }
      if !Configured(k, order[0]) && exists i :: 0 <= i < |order| && Configured(k, order[i]) {
        var i :| 0 <= i < |order| && Configured(k, order[i]);
        assert order[1..][i - 1] == order[i];
      }
    }
  }

  /** A stage list is non-empty iff some provider of the stage is configured. */
  lemma NonEmptyIffSomeConfigured(k: Keys, s: Stage)
    ensures |ServicePriority(k).Of(s)| > 0 <==> exists p :: p in PriorityOrder(s) && Configured(k, p)
  {
    KeepConfiguredNonEmpty(PriorityOrder(s), k);
  }

  /**
   * An OpenAI key alone fills every stage; without it, STT needs Deepgram,
   * LLM needs Groq, and TTS needs ElevenLabs or Cartesia.
   */
  lemma StageCoverage(k: Keys)
    ensures Configured(k, OpenAI) ==> forall s: Stage :: |ServicePriority(k).Of(s)| > 0
    ensures !Configured(k, OpenAI) ==>
      && (|ServicePriority(k).stt| > 0 <==> Configured(k, Deepgram))
      && (|ServicePriority(k).llm| > 0 <==> Configured(k, Groq))
      && (|ServicePriority(k).tts| > 0 <==> Configured(k, ElevenLabs) || Configured(k, Cartesia))
  {
    NonEmptyIffSomeConfigured(k, Stt);
    NonEmptyIffSomeConfigured(k, Llm);
    NonEmptyIffSomeConfigured(k, Tts);
    assert OpenAI in PriorityOrder(Stt) && OpenAI in PriorityOrder(Llm) && OpenAI in PriorityOrder(Tts);
    assert Deepgram in PriorityOrder(Stt) && Groq in PriorityOrder(Llm);
    assert ElevenLabs in PriorityOrder(Tts) && Cartesia in PriorityOrder(Tts);
  }

  /** The result of `validate_config`. */
  datatype ConfigStatus = ConfigStatus(
    valid: bool,
    errors: seq<string>,
    warnings: seq<string>,
    availableServices: Priorities)

  const LiveKitError: string := "LiveKit API key and secret are required"

  const LatencyWarning: string := "Target latency > 3s may impact user experience"

  function MissingServiceError(s: Stage): string
  {
    "No " + StageLabel(s) + " service configured"
  }

  /** The error one stage contributes: its message when its list is empty. */
  function StageError(p: Priorities, s: Stage): seq<string>
  {
    if |p.Of(s)| == 0 then [MissingServiceError(s)] else []
  }

  /** The errors the stage loop appends, one per empty stage, in dictionary order. */
  function StageErrors(p: Priorities, stages: seq<Stage>): seq<string>
  {
    if |stages| == 0 then [] else StageError(p, stages[0]) + StageErrors(p, stages[1..])
  }

  /** Number of stages whose list is empty. */
  function EmptyStageCount(p: Priorities): nat
  {
    (if |p.stt| == 0 then 1 else 0) + (if |p.llm| == 0 then 1 else 0) + (if |p.tts| == 0 then 1 else 0)
  }

  /**
   * `validate_config`. The status starts valid and every appended error
   * marks it invalid, so validity is exactly the absence of errors; the
   * latency warning is appended to a separate list.
   */
  function ValidateConfig(c: Settings): (st: ConfigStatus)
    ensures st.availableServices == ServicePriority(c.keys)
    ensures st.valid <==>
      LiveKitConfigured(c.keys) && forall s: Stage :: |st.availableServices.Of(s)| > 0
    ensures |st.errors| == (if LiveKitConfigured(c.keys) then 0 else 1) + EmptyStageCount(st.availableServices)
    ensures LiveKitError in st.errors <==> !LiveKitConfigured(c.keys)
    ensures forall s: Stage :: MissingServiceError(s) in st.errors <==> |st.availableServices.Of(s)| == 0
    ensures LatencyWarning in st.warnings <==> c.targetLatency > LatencyWarningThreshold
    ensures |st.warnings| <= 1
    ensures |st.warnings| > 0 <==> c.targetLatency > LatencyWarningThreshold
  {
    var p := ServicePriority(c.keys);
    var errors := ConfigErrors(c.keys, p);
    var warnings := if c.targetLatency > LatencyWarningThreshold then [LatencyWarning] else [];
    ConfigErrorsShape(c.keys, p);
    NoEmptyStage(p);
    ConfigStatus(|errors| == 0, errors, warnings, p)
  }

  /** The errors of `validate_config`: the LiveKit check first, then the stage loop. */
  function ConfigErrors(k: Keys, p: Priorities): seq<string>
  {
    (if LiveKitConfigured(k) then [] else [LiveKitError]) + StageErrors(p, Stages)
  }

  /** One error per missing requirement, each naming what is missing. */
  lemma ConfigErrorsShape(k: Keys, p: Priorities)
    ensures |ConfigErrors(k, p)| == (if LiveKitConfigured(k) then 0 else 1) + EmptyStageCount(p)
    ensures LiveKitError in ConfigErrors(k, p) <==> !LiveKitConfigured(k)
    ensures forall s: Stage :: MissingServiceError(s) in ConfigErrors(k, p) <==> |p.Of(s)| == 0
  {
    var liveKit := if LiveKitConfigured(k) then [] else [LiveKitError];
    var stages := StageErrors(p, Stages);
    StageErrorsShape(p);
    DistinctMessages();
    assert ConfigErrors(k, p) == liveKit + stages;
    forall s: Stage ensures MissingServiceError(s) in liveKit + stages <==> |p.Of(s)| == 0 {
      assert MissingServiceError(s) !in liveKit by { match s case Stt => case Llm => case Tts => }
    }
  }

  /** The stage loop visits the three stages once each, in order. */
  lemma StageErrorsUnfold(p: Priorities)
    ensures StageErrors(p, Stages) == StageError(p, Stt) + StageError(p, Llm) + StageError(p, Tts)
  {
    assert Stages[1..] == [Llm, Tts] && Stages[1..][1..] == [Tts] && Stages[1..][1..][1..] == [];
    assert StageErrors(p, [Tts]) == StageError(p, Tts) + StageErrors(p, []);
    assert StageErrors(p, [Llm, Tts]) == StageError(p, Llm) + StageErrors(p, [Tts]);
  }

  /** The stage errors name exactly the empty stages, and never the LiveKit error. */
  lemma StageErrorsShape(p: Priorities)
    ensures |StageErrors(p, Stages)| == EmptyStageCount(p)
    ensures LiveKitError !in StageErrors(p, Stages)
    ensures forall s: Stage :: MissingServiceError(s) in StageErrors(p, Stages) <==> |p.Of(s)| == 0
  {
    StageErrorsUnfold(p);
    var es, el, et := StageError(p, Stt), StageError(p, Llm), StageError(p, Tts);
    DistinctMessages();
    forall x: string ensures x in es + el + et <==> x in es || x in el || x in et {
    }
    forall s: Stage ensures MissingServiceError(s) in es + el + et <==> |p.Of(s)| == 0 {
      match s
      case Stt =>
        assert MissingServiceError(Stt) !in el && MissingServiceError(Stt) !in et;
      case Llm =>
        assert MissingServiceError(Llm) !in es && MissingServiceError(Llm) !in et;
      case Tts =>
        assert MissingServiceError(Tts) !in es && MissingServiceError(Tts) !in el;
    }
  }

  /** No stage is empty exactly when the empty-stage count is zero. */
  lemma NoEmptyStage(p: Priorities)
    ensures (forall s: Stage :: |p.Of(s)| > 0) <==> EmptyStageCount(p) == 0
  {
    assert p.Of(Stt) == p.stt && p.Of(Llm) == p.llm && p.Of(Tts) == p.tts;
  }

  /** The four error messages differ from each other. */
  lemma DistinctMessages()
    ensures LiveKitError != MissingServiceError(Stt)
    ensures LiveKitError != MissingServiceError(Llm)
    ensures LiveKitError != MissingServiceError(Tts)
    ensures MissingServiceError(Stt) != MissingServiceError(Llm)
    ensures MissingServiceError(Stt) != MissingServiceError(Tts)
    ensures MissingServiceError(Llm) != MissingServiceError(Tts)
  {
    assert LiveKitError[0] == 'L' && MissingServiceError(Stt)[0] == 'N';
    assert MissingServiceError(Llm)[0] == 'N' && MissingServiceError(Tts)[0] == 'N';
    assert MissingServiceError(Stt)[3] == 'S' && MissingServiceError(Llm)[3] == 'L';
    assert MissingServiceError(Tts)[3] == 'T';
  }

  /** When `TARGET_LATENCY` is left unset, its default of 2 seconds draws no warning. */
  lemma DefaultLatencyNoWarning(k: Keys)
    ensures ValidateConfig(Settings(k, DefaultTargetLatency)).warnings == []
  {
  }

  /** The target latency only decides the warnings: errors and validity ignore it. */
  lemma WarningsNeverAffectValidity(k: Keys, t1: real, t2: real)
    ensures ValidateConfig(Settings(k, t1)).valid == ValidateConfig(Settings(k, t2)).valid
    ensures ValidateConfig(Settings(k, t1)).errors == ValidateConfig(Settings(k, t2)).errors
  {
  }

  /** Two key sets that agree on which credentials are present. */
  predicate SamePresence(a: Keys, b: Keys)
  {
    && (Present(a.livekitKey) <==> Present(b.livekitKey))
    && (Present(a.livekitSecret) <==> Present(b.livekitSecret))
    && forall p: Provider :: Configured(a, p) <==> Configured(b, p)
  }

  /**
   * Validation is a pure function of which keys are present and of the
   * target latency: the key values themselves never matter.
   */
  lemma ValidationDependsOnlyOnPresence(a: Settings, b: Settings)
    requires SamePresence(a.keys, b.keys)
    requires a.targetLatency == b.targetLatency
    ensures ValidateConfig(a) == ValidateConfig(b)
  {
  }
}
