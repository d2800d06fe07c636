/**
 * The session metrics tracker (`MetricsTracker` in main.py): append-only
 * sample sequences, counters, session start and end, the summary row that
 * `save_to_excel` computes, and the append of that row to the sink.
 *
 * Clock readings (`time.time()`) and ISO timestamps (`datetime.now()`) are
 * parameters; the spreadsheet file is a sequence of summary rows.
 */
module MetricsTracker {
  import opened Wrappers
  import opened Stats

  /** The four sample sequences of the metrics dictionary. */
  datatype Series = SttDelays | TtftDelays | TtfdDelays | TotalLatencies

  /** The four counters of the metrics dictionary. */
  datatype Counter = Interruptions | UserMessages | AgentResponses | Errors

  /** The `metrics` dictionary. */
  datatype Metrics = Metrics(
    sessionId: Option<string>,
    startTime: Option<string>,
    endTime: Option<string>,
    totalDuration: real,
    interruptionsCount: nat,
    sttDelays: seq<real>,
    ttftDelays: seq<real>,
    ttfdDelays: seq<real>,
    totalLatencies: seq<real>,
    userMessages: nat,
    agentResponses: nat,
    errors: nat)

  /** The tracker object: the clock reading of the last session start, and the metrics. */
  datatype Tracker = Tracker(sessionStart: Option<real>, metrics: Metrics)

  function Samples(m: Metrics, s: Series): seq<real>
  {
    match s
    case SttDelays => m.sttDelays
    case TtftDelays => m.ttftDelays
    case TtfdDelays => m.ttfdDelays
    case TotalLatencies => m.totalLatencies
  }

  function Count(m: Metrics, c: Counter): nat
  {
    match c
    case Interruptions => m.interruptionsCount
    case UserMessages => m.userMessages
    case AgentResponses => m.agentResponses
    case Errors => m.errors
  }

  /** The session fields of two trackers agree. */
  predicate SameSession(a: Tracker, b: Tracker)
  {
    && a.sessionStart == b.sessionStart
    && a.metrics.sessionId == b.metrics.sessionId
    && a.metrics.startTime == b.metrics.startTime
    && a.metrics.endTime == b.metrics.endTime
    && a.metrics.totalDuration == b.metrics.totalDuration
  }

  /** Every sample sequence and every counter of two trackers agree. */
  predicate SameData(a: Tracker, b: Tracker)
  {
    && (forall s: Series :: Samples(a.metrics, s) == Samples(b.metrics, s))
    && (forall c: Counter :: Count(a.metrics, c) == Count(b.metrics, c))
  }

  /** `MetricsTracker()`: no session, no samples, all counters zero. */
  function NewTracker(): (t: Tracker)
    ensures t.sessionStart.None? && t.metrics.sessionId.None?
    ensures t.metrics.startTime.None? && t.metrics.endTime.None? && t.metrics.totalDuration == 0.0
    ensures forall s: Series :: Samples(t.metrics, s) == []
    ensures forall c: Counter :: Count(t.metrics, c) == 0
  {
    Tracker(None, Metrics(None, None, None, 0.0, 0, [], [], [], [], 0, 0, 0))
  }

  /**
   * `start_session`: records the clock reading, the id and the start
   * timestamp. It clears nothing: samples, counters and the previous
   * session's end time and duration are kept.
   */
  function StartSession(t: Tracker, id: string, clock: real, stamp: string): (r: Tracker)
    ensures r.sessionStart == Some(clock)
    ensures r.metrics.sessionId == Some(id) && r.metrics.startTime == Some(stamp)
    ensures r.metrics.endTime == t.metrics.endTime && r.metrics.totalDuration == t.metrics.totalDuration
    ensures SameData(t, r)
  {
    Tracker(Some(clock), t.metrics.(sessionId := Some(id), startTime := Some(stamp)))
  }

  /**
   * `record_stt_delay`, `record_ttft`, `record_ttfd` and
   * `record_total_latency`: one sample appended to its own sequence,
   * everything else unchanged.
   */
  function Record(t: Tracker, s: Series, x: real): (r: Tracker)
    ensures Samples(r.metrics, s) == Samples(t.metrics, s) + [x]
    ensures forall s': Series :: s' != s ==> Samples(r.metrics, s') == Samples(t.metrics, s')
    ensures forall c: Counter :: Count(r.metrics, c) == Count(t.metrics, c)
    ensures SameSession(t, r)
  {
    var m := t.metrics;
    match s
    case SttDelays => t.(metrics := m.(sttDelays := m.sttDelays + [x]))
    case TtftDelays => t.(metrics := m.(ttftDelays := m.ttftDelays + [x]))
    case TtfdDelays => t.(metrics := m.(ttfdDelays := m.ttfdDelays + [x]))
    case TotalLatencies => t.(metrics := m.(totalLatencies := m.totalLatencies + [x]))
  }

  /**
   * `record_interruption`, `record_user_message`, `record_agent_response`
   * and `record_error`: one counter up by one, everything else unchanged.
   */
  function Increment(t: Tracker, c: Counter): (r: Tracker)
    ensures Count(r.metrics, c) == Count(t.metrics, c) + 1
    ensures forall c': Counter :: c' != c ==> Count(r.metrics, c') == Count(t.metrics, c')
    ensures forall s: Series :: Samples(r.metrics, s) == Samples(t.metrics, s)
    ensures SameSession(t, r)
  {
    var m := t.metrics;
    match c
    case Interruptions => t.(metrics := m.(interruptionsCount := m.interruptionsCount + 1))
    case UserMessages => t.(metrics := m.(userMessages := m.userMessages + 1))
    case AgentResponses => t.(metrics := m.(agentResponses := m.agentResponses + 1))
    case Errors => t.(metrics := m.(errors := m.errors + 1))
  }

  /** Python truthiness of `session_start`: set and not `0.0`. */
  predicate Started(t: Tracker)
  {
    t.sessionStart.Some? && t.sessionStart.value != 0.0
  }

  /**
   * `end_session`: a no-op unless a session was started; otherwise it
   * records the end timestamp and the elapsed clock time and nothing else.
   */
  function EndSession(t: Tracker, clock: real, stamp: string): (r: Tracker)
    ensures !Started(t) ==> r == t
    ensures Started(t) ==> r.metrics.endTime == Some(stamp)
    ensures Started(t) ==> r.metrics.totalDuration == clock - t.sessionStart.value
    ensures r.sessionStart == t.sessionStart
    ensures r.metrics.sessionId == t.metrics.sessionId && r.metrics.startTime == t.metrics.startTime
    ensures SameData(t, r)
  {
    if Started(t) then
      t.(metrics := t.metrics.(endTime := Some(stamp), totalDuration := clock - t.sessionStart.value))
    else
      t
  }

  /** A call on the tracker, as the session loop makes them. */
  datatype Call =
    | Start(id: string, clock: real, stamp: string)
    | Sample(series: Series, value: real)
    | Bump(counter: Counter)
    | End(clock: real, stamp: string)

  function Apply(t: Tracker, c: Call): Tracker
  {
    match c
    case Start(id, clock, stamp) => StartSession(t, id, clock, stamp)
    case Sample(s, x) => Record(t, s, x)
    case Bump(k) => Increment(t, k)
    case End(clock, stamp) => EndSession(t, clock, stamp)
  }

  /** The tracker after a sequence of calls, made in order. */
  function Replay(t: Tracker, calls: seq<Call>): Tracker
    decreases |calls|
  {
    if |calls| == 0 then t else Replay(Apply(t, calls[0]), calls[1..])
  }

  /** The values a call sequence records into series `s`, in call order. */
  function Recorded(calls: seq<Call>, s: Series): seq<real>
  {
    if |calls| == 0 then []
    else
      var head := if calls[0].Sample? && calls[0].series == s then [calls[0].value] else [];
      head + Recorded(calls[1..], s)
  }

  /** How many calls of a sequence increment counter `c`. */
  function Occurrences(calls: seq<Call>, c: Counter): nat
  {
    if |calls| == 0 then 0
    else (if calls[0] == Bump(c) then 1 else 0) + Occurrences(calls[1..], c)
  }

  /** No call of the sequence starts or ends a session. */
  predicate NoSessionCalls(calls: seq<Call>)
  {
    forall i :: 0 <= i < |calls| ==> calls[i].Sample? || calls[i].Bump?
  }

  lemma NoSessionCallsAppend(a: seq<Call>, b: seq<Call>)
    requires NoSessionCalls(a) && NoSessionCalls(b)
    ensures NoSessionCalls(a + b)
  {
  }

  lemma {:induction false} ReplayAppend(t: Tracker, a: seq<Call>, b: seq<Call>)
    ensures Replay(t, a + b) == Replay(Replay(t, a), b)
    decreases |a|
  {
    if |a| > 0 {
      assert (a + b)[0] == a[0] && (a + b)[1..] == a[1..] + b;
      ReplayAppend(Apply(t, a[0]), a[1..], b);
    } else {
      assert a + b == b;
    }
  }

  lemma {:induction false} RecordedAppend(a: seq<Call>, b: seq<Call>, s: Series)
    ensures Recorded(a + b, s) == Recorded(a, s) + Recorded(b, s)
  {
    if |a| > 0 {
      assert (a + b)[0] == a[0] && (a + b)[1..] == a[1..] + b;
      RecordedAppend(a[1..], b, s);
    } else {
      assert a + b == b;
    }
  }

  lemma {:induction false} OccurrencesAppend(a: seq<Call>, b: seq<Call>, c: Counter)
    ensures Occurrences(a + b, c) == Occurrences(a, c) + Occurrences(b, c)
  {
    if |a| > 0 {
      assert (a + b)[0] == a[0] && (a + b)[1..] == a[1..] + b;
      OccurrencesAppend(a[1..], b, c);
    } else {
      assert a + b == b;
    }
  }

  /**
   * The samples and counters after a call sequence are exactly the
   * starting ones plus what the calls record: nothing is lost, reordered
   * or invented, and starting or ending a session touches no data.
   */
  lemma {:induction false} ReplayData(t: Tracker, calls: seq<Call>)
    ensures forall s: Series :: Samples(Replay(t, calls).metrics, s) == Samples(t.metrics, s) + Recorded(calls, s)
    ensures forall c: Counter :: Count(Replay(t, calls).metrics, c) == Count(t.metrics, c) + Occurrences(calls, c)
    decreases |calls|
  {
    if |calls| > 0 {
      var t' := Apply(t, calls[0]);
      ReplayData(t', calls[1..]);
      forall s: Series
        ensures Samples(Replay(t, calls).metrics, s) == Samples(t.metrics, s) + Recorded(calls, s)
      {
        var first := if calls[0].Sample? && calls[0].series == s then [calls[0].value] else [];
        assert Samples(t'.metrics, s) == Samples(t.metrics, s) + first;
      }
    }
  }

  /** Calls that neither start nor end a session leave the session fields alone. */
  lemma {:induction false} ReplayKeepsSession(t: Tracker, calls: seq<Call>)
    requires NoSessionCalls(calls)
    ensures SameSession(t, Replay(t, calls))
    decreases |calls|
  {
    if |calls| > 0 {
      assert calls[0].Sample? || calls[0].Bump?;
      assert NoSessionCalls(calls[1..]) by {
        forall i | 0 <= i < |calls[1..]| ensures calls[1..][i].Sample? || calls[1..][i].Bump? {
          assert calls[1..][i] == calls[i + 1];
        }
      }
      ReplayKeepsSession(Apply(t, calls[0]), calls[1..]);
    }
  }

  /** The "Latency Target Met (<2s)" threshold, in seconds; not `TARGET_LATENCY`. */
  const LatencyTarget: real := 2.0

  /** One row of the metrics spreadsheet. */
  datatype Summary = Summary(
    sessionId: Option<string>,
    startTime: Option<string>,
    endTime: Option<string>,
    totalDuration: real,
    userMessages: nat,
    agentResponses: nat,
    interruptions: nat,
    avgStt: real,
    avgTtft: real,
    avgTtfd: real,
    avgLatency: real,
    maxLatency: real,
    minLatency: real,
    errors: nat,
    targetMet: bool)

  /** The summary row `save_to_excel` builds from the tracker. */
  function Summarize(t: Tracker): (r: Summary)
    ensures r.sessionId == t.metrics.sessionId && r.startTime == t.metrics.startTime
    ensures r.endTime == t.metrics.endTime && r.totalDuration == t.metrics.totalDuration
    ensures r.userMessages == t.metrics.userMessages && r.agentResponses == t.metrics.agentResponses
    ensures r.interruptions == t.metrics.interruptionsCount && r.errors == t.metrics.errors
    ensures IsMeanOf(r.avgStt, t.metrics.sttDelays) && IsMeanOf(r.avgTtft, t.metrics.ttftDelays)
    ensures IsMeanOf(r.avgTtfd, t.metrics.ttfdDelays) && IsMeanOf(r.avgLatency, t.metrics.totalLatencies)
    ensures |t.metrics.totalLatencies| == 0 ==> r.maxLatency == 0.0 && r.minLatency == 0.0
    ensures |t.metrics.totalLatencies| > 0 ==> r.minLatency <= r.avgLatency <= r.maxLatency
    ensures |t.metrics.totalLatencies| > 0 ==>
      r.maxLatency in t.metrics.totalLatencies && r.minLatency in t.metrics.totalLatencies
    ensures forall i :: 0 <= i < |t.metrics.totalLatencies| ==>
      r.minLatency <= t.metrics.totalLatencies[i] <= r.maxLatency
    ensures r.targetMet <==> r.avgLatency < LatencyTarget
  {
    var m := t.metrics;
    var avgLatency := Mean(m.totalLatencies);
    MeanWithinDefaults(m.totalLatencies);
    Summary(m.sessionId, m.startTime, m.endTime, m.totalDuration,
            m.userMessages, m.agentResponses, m.interruptionsCount,
            Mean(m.sttDelays), Mean(m.ttftDelays), Mean(m.ttfdDelays), avgLatency,
            MaxOrZero(m.totalLatencies), MinOrZero(m.totalLatencies),
            m.errors, avgLatency < LatencyTarget)
  }

  /** With no total-latency samples the average is 0, so the target counts as met. */
  lemma NoLatencySamplesMeetTarget(t: Tracker)
    requires |t.metrics.totalLatencies| == 0
    ensures Summarize(t).targetMet
    ensures Summarize(t).avgLatency == 0.0
  {
  }

  /**
   * The append of `save_to_excel`: when the write goes through, the sink
   * gains exactly the summary row after all existing rows, in their order;
   * when anything raises, the sink is left as it was.
   */
  function Save(t: Tracker, sink: seq<Summary>, written: bool): (r: seq<Summary>)
    ensures written ==> |r| == |sink| + 1 && r[..|sink|] == sink && r[|sink|] == Summarize(t)
    ensures !written ==> r == sink
  {
    if written then sink + [Summarize(t)] else sink
  }
}
