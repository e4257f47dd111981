/** The Kafka metrics snapshot and its Prometheus text. */
module KafkaMetrics {
  import opened Wrappers
  import opened Exposition
  import opened Float64
  import Text
  import Lists

  // ---- The snapshot ----

  datatype CommitStats<N> = CommitStats(
    topic: string, partition: int, initialized: bool, nextOffset: N, highWaterMarkOffset: N, lagEstimate: N,
    pendingCount: N, doneCount: N, oldestPendingOffset: N, largestPendingGap: N)

  /** The counters and gauges of one snapshot, over the numbers N. */
  datatype Stats<N> = Stats(
    consumedTotal: N, handlerSuccessTotal: N, handlerFailureTotal: N, handlerRetryTotal: N, malformedTotal: N,
    deadLetterSuccessTotal: N, deadLetterFailureTotal: N, pauseTransitionsTotal: N, resumeTransitionsTotal: N, pausedPartitions: N,
    queueUsageRatio: float64, queued: N, queueCapacity: N, workers: N, submittedTotal: N, completedTotal: N, rejectedTotal: N,
    inFlightMessages: N, waitingTasks: N, completedMessages: N,
    commits: seq<CommitStats<N>>)

  type Commit = CommitStats<int64>

  type Snapshot = Stats<int64>

  // ---- Metric families ----

  type Word = s: string | forall i :: 0 <= i < |s| ==> IsNameChar(s[i])

  type HelpText = s: string | OneLine(s)

  /**
   * A metric family: its name in a group under the common prefix, and its help text. A help text is a sum of short
   * literals because its type has the verifier look for line feeds, which it does in literals of at most 40 characters.
   */
  datatype Family = Family(group: Word, suffix: Word, help: HelpText)

  const PREFIX: Word := "simpletrack_kafka_"
  const TOP: Word := ""
  const WORKER: Word := "worker_"
  const COMPLETION: Word := "completion_"
  const ORDERED_COMMIT: Word := "ordered_commit_"

  const BY_PARTITION: HelpText := " by topic-partition."
  const LOCAL_ESTIMATE: HelpText := "Kafka process-local lag estimate"

  const CONSUMED_TOTAL: Family :=
    Family(TOP, "consumed_total", "Kafka records consumed" + " from the primary" + " analytics topic.")
  const HANDLER_SUCCESS_TOTAL: Family :=
    Family(TOP, "handler_success_total", "Kafka records completed" + " through handler" + " success.")
  const HANDLER_FAILURE_TOTAL: Family :=
    Family(TOP, "handler_failure_total", "Kafka handler attempts" + " that returned an error.")
  const HANDLER_RETRY_TOTAL: Family :=
    Family(TOP, "handler_retry_total", "Kafka handler attempts" + " scheduled after a" + " previous failure.")
  const MALFORMED_TOTAL: Family :=
    Family(TOP, "malformed_total", "Kafka records that could" + " not decode as" + " EventEnvelope.")
  const DEAD_LETTER_SUCCESS_TOTAL: Family :=
    Family(TOP, "dead_letter_success_total", "Kafka records" + " successfully written to" + " the dead-letter topic.")
  const DEAD_LETTER_FAILURE_TOTAL: Family :=
    Family(TOP, "dead_letter_failure_total", "Kafka dead-letter write" + " attempts that failed.")
  const PAUSE_TRANSITIONS_TOTAL: Family :=
    Family(TOP, "pause_transitions_total", "Kafka local backpressure" + " pause transitions.")
  const RESUME_TRANSITIONS_TOTAL: Family :=
    Family(TOP, "resume_transitions_total", "Kafka local backpressure" + " resume transitions.")
  const PAUSED_PARTITIONS: Family :=
    Family(TOP, "paused_partitions", "Kafka topic-partitions" + " currently paused by" + " local backpressure.")
  const WORKER_QUEUE_USAGE_RATIO: Family :=
    Family(WORKER, "queue_usage_ratio", "Kafka handler queue" + " usage ratio in this" + " process.")
  const WORKER_QUEUED: Family :=
    Family(WORKER, "queued", "Kafka handler tasks" + " currently queued in" + " this process.")
  const WORKER_QUEUE_CAPACITY: Family :=
    Family(WORKER, "queue_capacity", "Kafka handler queue" + " capacity in this" + " process.")
  const WORKER_WORKERS: Family :=
    Family(WORKER, "workers", "Kafka handler worker" + " count in this process.")
  const WORKER_SUBMITTED_TOTAL: Family :=
    Family(WORKER, "submitted_total", "Kafka handler tasks" + " accepted by the worker" + " pool.")
  const WORKER_COMPLETED_TOTAL: Family :=
    Family(WORKER, "completed_total", "Kafka handler tasks" + " completed by the worker" + " pool.")
  const WORKER_REJECTED_TOTAL: Family :=
    Family(WORKER, "rejected_total", "Kafka handler tasks" + " rejected by the worker" + " pool.")
  const COMPLETION_IN_FLIGHT_MESSAGES: Family :=
    Family(COMPLETION, "in_flight_messages", "Kafka messages not yet" + " completed by the" + " completion gate.")
  const COMPLETION_WAITING_TASKS: Family :=
    Family(COMPLETION, "waiting_tasks", "Kafka async tasks still" + " waiting in the" + " completion gate.")
  const COMPLETION_COMPLETED_MESSAGES_TOTAL: Family :=
    Family(COMPLETION, "completed_messages_total", "Kafka messages completed" + " by the completion gate.")
  const ORDERED_COMMIT_INITIALIZED: Family :=
    Family(ORDERED_COMMIT, "initialized", "Kafka ordered committer" + " initialization state" + BY_PARTITION)
  const ORDERED_COMMIT_NEXT_OFFSET: Family :=
    Family(ORDERED_COMMIT, "next_offset", "Kafka earliest offset" + " still blocking ordered" + " completion" + BY_PARTITION)
  const ORDERED_COMMIT_HIGH_WATERMARK_OFFSET: Family :=
    Family(ORDERED_COMMIT, "high_watermark_offset", "Kafka latest high-water" + " mark observed by this" + " process" + BY_PARTITION)
  const ORDERED_COMMIT_LAG_ESTIMATE: Family :=
    Family(ORDERED_COMMIT, "lag_estimate", LOCAL_ESTIMATE + " by topic-partition; not" + " authoritative broker" + " lag.")
  const ORDERED_COMMIT_PENDING: Family :=
    Family(ORDERED_COMMIT, "pending", "Kafka registered offsets" + " not yet completed" + BY_PARTITION)
  const ORDERED_COMMIT_DONE: Family :=
    Family(ORDERED_COMMIT, "done", "Kafka completed offsets" + " waiting for earlier" + " offsets" + BY_PARTITION)
  const ORDERED_COMMIT_OLDEST_PENDING_OFFSET: Family :=
    Family(ORDERED_COMMIT, "oldest_pending_offset", "Kafka oldest registered" + " pending offset" + BY_PARTITION)
  const ORDERED_COMMIT_LARGEST_PENDING_GAP: Family :=
    Family(ORDERED_COMMIT, "largest_pending_gap", "Kafka largest observed" + " registration gap" + BY_PARTITION)

  function NameOf(f: Family): (name: string)
    ensures IsName(name)
  {
    PREFIX + f.group + f.suffix
  }

  // ---- Metrics ----

  datatype Metric = Metric(family: Family, kind: Kind, labels: map<string, string>, value: float64)
  {
    function Name(): (name: string)
      ensures IsName(name)
    {
      NameOf(family)
    }
  }

  const TOPIC: string := "topic"
  const PARTITION: string := "partition"

  function CounterMetric(f: Family, value: float64): Metric {
    Metric(f, Counter, map[], value)
  }

  function GaugeMetric(f: Family, value: float64): Metric {
    Metric(f, Gauge, map[], value)
  }

  function LabeledGaugeMetric(f: Family, labels: map<string, string>, value: float64): Metric {
    Metric(f, Gauge, labels, value)
  }

  function BoolFloat(b: bool): float64 {
    ZeroIsFloat64();
    if b then 1.0 else 0.0
  }

  function CommitLabels(c: Commit): map<string, string> {
    map[TOPIC := c.topic, PARTITION := Text.Decimal(c.partition)]
  }

  function CommitBlock(c: Commit): (block: seq<Metric>)
    ensures |block| == 8
  {
    var labels := CommitLabels(c);
    [
      LabeledGaugeMetric(ORDERED_COMMIT_INITIALIZED, labels, BoolFloat(c.initialized)),
      LabeledGaugeMetric(ORDERED_COMMIT_NEXT_OFFSET, labels, ToFloat64(c.nextOffset)),
      LabeledGaugeMetric(ORDERED_COMMIT_HIGH_WATERMARK_OFFSET, labels, ToFloat64(c.highWaterMarkOffset)),
      LabeledGaugeMetric(ORDERED_COMMIT_LAG_ESTIMATE, labels, ToFloat64(c.lagEstimate)),
      LabeledGaugeMetric(ORDERED_COMMIT_PENDING, labels, ToFloat64(c.pendingCount)),
      LabeledGaugeMetric(ORDERED_COMMIT_DONE, labels, ToFloat64(c.doneCount)),
      LabeledGaugeMetric(ORDERED_COMMIT_OLDEST_PENDING_OFFSET, labels, ToFloat64(c.oldestPendingOffset)),
      LabeledGaugeMetric(ORDERED_COMMIT_LARGEST_PENDING_GAP, labels, ToFloat64(c.largestPendingGap))
    ]
  }

  function CommitMetrics(commits: seq<Commit>): (ms: seq<Metric>)
    ensures |ms| == 8 * |commits|
  {
    if commits == [] then [] else CommitMetrics(commits[..|commits| - 1]) + CommitBlock(commits[|commits| - 1])
  }

  function ProcessMetrics(stats: Snapshot): (ms: seq<Metric>)
    ensures |ms| == 20
  {
    [
      CounterMetric(CONSUMED_TOTAL, ToFloat64(stats.consumedTotal)),
      CounterMetric(HANDLER_SUCCESS_TOTAL, ToFloat64(stats.handlerSuccessTotal)),
      CounterMetric(HANDLER_FAILURE_TOTAL, ToFloat64(stats.handlerFailureTotal)),
      CounterMetric(HANDLER_RETRY_TOTAL, ToFloat64(stats.handlerRetryTotal)),
      CounterMetric(MALFORMED_TOTAL, ToFloat64(stats.malformedTotal)),
      CounterMetric(DEAD_LETTER_SUCCESS_TOTAL, ToFloat64(stats.deadLetterSuccessTotal)),
      CounterMetric(DEAD_LETTER_FAILURE_TOTAL, ToFloat64(stats.deadLetterFailureTotal)),
      CounterMetric(PAUSE_TRANSITIONS_TOTAL, ToFloat64(stats.pauseTransitionsTotal)),
      CounterMetric(RESUME_TRANSITIONS_TOTAL, ToFloat64(stats.resumeTransitionsTotal)),
      GaugeMetric(PAUSED_PARTITIONS, ToFloat64(stats.pausedPartitions)),
      GaugeMetric(WORKER_QUEUE_USAGE_RATIO, stats.queueUsageRatio),
      GaugeMetric(WORKER_QUEUED, ToFloat64(stats.queued)),
      GaugeMetric(WORKER_QUEUE_CAPACITY, ToFloat64(stats.queueCapacity)),
      GaugeMetric(WORKER_WORKERS, ToFloat64(stats.workers)),
      CounterMetric(WORKER_SUBMITTED_TOTAL, ToFloat64(stats.submittedTotal)),
      CounterMetric(WORKER_COMPLETED_TOTAL, ToFloat64(stats.completedTotal)),
      CounterMetric(WORKER_REJECTED_TOTAL, ToFloat64(stats.rejectedTotal)),
      GaugeMetric(COMPLETION_IN_FLIGHT_MESSAGES, ToFloat64(stats.inFlightMessages)),
      GaugeMetric(COMPLETION_WAITING_TASKS, ToFloat64(stats.waitingTasks)),
      CounterMetric(COMPLETION_COMPLETED_MESSAGES_TOTAL, ToFloat64(stats.completedMessages))
    ]
  }

  // ---- What is reported under which name ----

  /** m is the value of its kind under the common prefix, this group and this suffix. */
  predicate Reports(m: Metric, group: string, suffix: string, kind: Kind, labels: map<string, string>, value: real) {
    m.family.group == group && m.family.suffix == suffix && m.kind == kind && m.labels == labels && m.value == value
  }

  lemma NamesArePrefixed(m: Metric)
    ensures m.Name() == "simpletrack_kafka_" + m.family.group + m.family.suffix
  {
  }

  lemma HandlingMetricsAre(s: Snapshot)
    ensures
      var ms := ProcessMetrics(s);
      && Reports(ms[0], "", "consumed_total", Counter, map[], ToFloat64(s.consumedTotal))
      && Reports(ms[1], "", "handler_success_total", Counter, map[], ToFloat64(s.handlerSuccessTotal))
  {
  }

  lemma AttemptMetricsAre(s: Snapshot)
    ensures
      var ms := ProcessMetrics(s);
      && Reports(ms[2], "", "handler_failure_total", Counter, map[], ToFloat64(s.handlerFailureTotal))
      && Reports(ms[3], "", "handler_retry_total", Counter, map[], ToFloat64(s.handlerRetryTotal))
  {
  }

  lemma MalformedMetricsAre(s: Snapshot)
    ensures
      var ms := ProcessMetrics(s);
      && Reports(ms[4], "", "malformed_total", Counter, map[], ToFloat64(s.malformedTotal))
  {
  }

  lemma DeadLetterMetricsAre(s: Snapshot)
    ensures
      var ms := ProcessMetrics(s);
      && Reports(ms[5], "", "dead_letter_success_total", Counter, map[], ToFloat64(s.deadLetterSuccessTotal))
      && Reports(ms[6], "", "dead_letter_failure_total", Counter, map[], ToFloat64(s.deadLetterFailureTotal))
  {
  }

  lemma BackpressureMetricsAre(s: Snapshot)
    ensures
      var ms := ProcessMetrics(s);
      && Reports(ms[7], "", "pause_transitions_total", Counter, map[], ToFloat64(s.pauseTransitionsTotal))
      && Reports(ms[8], "", "resume_transitions_total", Counter, map[], ToFloat64(s.resumeTransitionsTotal))
      && Reports(ms[9], "", "paused_partitions", Gauge, map[], ToFloat64(s.pausedPartitions))
  {
  }

  lemma PoolMetricsAre(s: Snapshot)
    ensures
      var ms := ProcessMetrics(s);
      && Reports(ms[10], "worker_", "queue_usage_ratio", Gauge, map[], s.queueUsageRatio)
      && Reports(ms[11], "worker_", "queued", Gauge, map[], ToFloat64(s.queued))
      && Reports(ms[12], "worker_", "queue_capacity", Gauge, map[], ToFloat64(s.queueCapacity))
  {
  }

  lemma WorkerMetricsAre(s: Snapshot)
    ensures
      var ms := ProcessMetrics(s);
      && Reports(ms[13], "worker_", "workers", Gauge, map[], ToFloat64(s.workers))
      && Reports(ms[14], "worker_", "submitted_total", Counter, map[], ToFloat64(s.submittedTotal))
  {
  }

  lemma CompletionMetricsAre(s: Snapshot)
    ensures
      var ms := ProcessMetrics(s);
      && Reports(ms[15], "worker_", "completed_total", Counter, map[], ToFloat64(s.completedTotal))
      && Reports(ms[16], "worker_", "rejected_total", Counter, map[], ToFloat64(s.rejectedTotal))
      && Reports(ms[17], "completion_", "in_flight_messages", Gauge, map[], ToFloat64(s.inFlightMessages))
      && Reports(ms[18], "completion_", "waiting_tasks", Gauge, map[], ToFloat64(s.waitingTasks))
      && Reports(ms[19], "completion_", "completed_messages_total", Counter, map[], ToFloat64(s.completedMessages))
  {
  }

  /** Each commit reports its eight gauges under its topic and its partition number. */
  lemma CommitMetricsAre(c: Commit)
    ensures
      var ms, labels := CommitBlock(c), map["topic" := c.topic, "partition" := Text.Decimal(c.partition)];
      && Reports(ms[0], "ordered_commit_", "initialized", Gauge, labels, if c.initialized then 1.0 else 0.0)
      && Reports(ms[1], "ordered_commit_", "next_offset", Gauge, labels, ToFloat64(c.nextOffset))
      && Reports(ms[2], "ordered_commit_", "high_watermark_offset", Gauge, labels, ToFloat64(c.highWaterMarkOffset))
      && Reports(ms[3], "ordered_commit_", "lag_estimate", Gauge, labels, ToFloat64(c.lagEstimate))
      && Reports(ms[4], "ordered_commit_", "pending", Gauge, labels, ToFloat64(c.pendingCount))
      && Reports(ms[5], "ordered_commit_", "done", Gauge, labels, ToFloat64(c.doneCount))
      && Reports(ms[6], "ordered_commit_", "oldest_pending_offset", Gauge, labels, ToFloat64(c.oldestPendingOffset))
      && Reports(ms[7], "ordered_commit_", "largest_pending_gap", Gauge, labels, ToFloat64(c.largestPendingGap))
  {
  }

  /** The commits' gauges follow in the order of the commits, eight each. */
  lemma {:induction false} CommitsInOrder(commits: seq<Commit>, i: nat)
    requires i < |commits|
    ensures BlockAt(CommitMetrics(commits), i, CommitBlock(commits[i]))
  {
    var n := |commits| - 1;
    BlockKept(CommitMetrics(commits[..n]), CommitBlock(commits[n]), i, CommitBlock(commits[i]));
    if i < n {
      CommitsInOrder(commits[..n], i);
      assert commits[..n][i] == commits[i];
    }
  }

  predicate BlockAt(ms: seq<Metric>, i: nat, block: seq<Metric>) {
    8 * i + 8 <= |ms| && ms[8 * i..8 * i + 8] == block
  }

  lemma BlockKept(a: seq<Metric>, b: seq<Metric>, i: nat, block: seq<Metric>)
    ensures BlockAt(a, i, block) ==> BlockAt(a + b, i, block)
    ensures |a| == 8 * i && |b| == 8 ==> BlockAt(a + b, i, b)
  {
  }

  method KafkaPrometheusMetrics(stats: Snapshot) returns (metrics: seq<Metric>)
    ensures metrics == ProcessMetrics(stats) + CommitMetrics(stats.commits)
  {
    metrics := ProcessMetrics(stats);
    metrics := AppendCommits(metrics, stats.commits);
  }

  method AppendCommits(before: seq<Metric>, commits: seq<Commit>) returns (metrics: seq<Metric>)
    ensures metrics == before + CommitMetrics(commits)
  {
    metrics := before;
    for i := 0 to |commits|
      invariant metrics == before + CommitMetrics(commits[..i])
    {
      CommitStep(before, commits, i);
      metrics := metrics + CommitBlock(commits[i]);
    }
    assert commits[..|commits|] == commits;
  }

  lemma CommitStep(before: seq<Metric>, commits: seq<Commit>, i: nat)
    requires i < |commits|
    ensures before + CommitMetrics(commits[..i]) + CommitBlock(commits[i]) == before + CommitMetrics(commits[..i + 1])
  {
    assert commits[..i + 1][..i] == commits[..i];
  }

  // ---- Rendering ----

  function Label(labels: map<string, string>, key: string): string {
    if key in labels then labels[key] else ""
  }

  /** The labels written for a metric: none for an empty map, else topic and partition. */
  function PairsOf(labels: map<string, string>): seq<Pair> {
    if labels == map[] then [] else [(TOPIC, Label(labels, TOPIC)), (PARTITION, Label(labels, PARTITION))]
  }

  method WritePrometheusLabels(builder: string, labels: map<string, string>) returns (text: string)
    ensures text == builder + PrintLabels(PairsOf(labels))
  {
    text := builder;
    if |labels| == 0 {
      assert labels == map[];
      return;
    }
    var keys := [TOPIC, PARTITION];
    var inner := "";
    ghost var first, second := PrintPair((TOPIC, Label(labels, TOPIC))), PrintPair((PARTITION, Label(labels, PARTITION)));
    for i := 0 to |keys|
      invariant inner == if i == 0 then "" else if i == 1 then first else first + "," + second
    {
      if i > 0 {
        inner := inner + ",";
      }
      inner := inner + (keys[i] + "=\"" + EscapeLabel(Label(labels, keys[i])) + "\"");
    }
    text := text + ("{" + inner + "}");
    TwoPairs((TOPIC, Label(labels, TOPIC)), (PARTITION, Label(labels, PARTITION)));
  }

  function SampleOf(m: Metric, format: float64 -> string): Line {
    Sample(m.Name(), PairsOf(m.labels), format(m.value))
  }

  function Named(m: Metric): string {
    m.Name()
  }

  /** HELP and TYPE, unless an earlier metric has the name. */
  ghost function Metadata(ms: seq<Metric>, i: nat): seq<Line>
    requires i < |ms|
  {
    if Lists.HasKey(ms[..i], Named, ms[i].Name()) then [] else [Help(ms[i].Name(), ms[i].family.help), Type(ms[i].Name(), ms[i].kind)]
  }

  ghost function LinesOf(ms: seq<Metric>, format: float64 -> string): seq<Line> {
    if ms == [] then []
    else
      var n := |ms| - 1;
      LinesOf(ms[..n], format) + Metadata(ms, n) + [SampleOf(ms[n], format)]
  }

  lemma LinesStep(ms: seq<Metric>, i: nat, format: float64 -> string)
    requires i < |ms|
    ensures LinesOf(ms[..i + 1], format) == LinesOf(ms[..i], format) + Metadata(ms, i) + [SampleOf(ms[i], format)]
  {
    var s := ms[..i + 1];
    assert s[..i] == ms[..i] && s[i] == ms[i];
  }

  lemma PrintTwo(lines: seq<Line>, a: Line, b: Line)
    ensures Print(lines + [a, b]) == Print(lines) + PrintLine(a) + "\n" + PrintLine(b) + "\n"
  {
    assert lines + [a, b] == (lines + [a]) + [b];
    PrintOne(lines + [a], b);
    PrintOne(lines, a);
  }

  lemma PrintOne(lines: seq<Line>, a: Line)
    ensures Print(lines + [a]) == Print(lines) + PrintLine(a) + "\n"
  {
    assert (lines + [a])[..|lines|] == lines;
  }

  method WriteMetadata(builder: string, m: Metric, ghost lines: seq<Line>) returns (text: string)
    requires builder == Print(lines)
    ensures text == Print(lines + [Help(m.Name(), m.family.help), Type(m.Name(), m.kind)])
  {
    text := builder + (HELP + m.Name() + " " + m.family.help) + "\n";
    text := text + (TYPE + m.Name() + " " + KindText(m.kind)) + "\n";
    PrintTwo(lines, Help(m.Name(), m.family.help), Type(m.Name(), m.kind));
  }

  method WriteSample(builder: string, m: Metric, format: float64 -> string, ghost lines: seq<Line>) returns (text: string)
    requires builder == Print(lines)
    ensures text == Print(lines + [SampleOf(m, format)])
  {
    var named := WritePrometheusLabels(m.Name(), m.labels);
    text := builder + (named + " " + format(m.value)) + "\n";
    PrintOne(lines, SampleOf(m, format));
  }

  method RenderKafkaMetrics(stats: Snapshot, format: float64 -> string) returns (text: string)
    ensures text == SnapshotText(stats, format)
  {
    var metrics := KafkaPrometheusMetrics(stats);
    text := RenderMetrics(metrics, format);
  }

  /** Writes metric i, with its metadata unless its name is known. */
  method RenderMetric(builder: string, metrics: seq<Metric>, i: nat, known: bool, format: float64 -> string) returns (text: string)
    requires i < |metrics| && builder == Print(LinesOf(metrics[..i], format))
    requires known <==> Lists.HasKey(metrics[..i], Named, metrics[i].Name())
    ensures text == Print(LinesOf(metrics[..i + 1], format))
  {
    var m := metrics[i];
    ghost var lines := LinesOf(metrics[..i], format);
    LinesStep(metrics, i, format);
    text := builder;
    if !known {
      text := WriteMetadata(text, m, lines);
    }
    assert lines + [] == lines;
    text := WriteSample(text, m, format, lines + Metadata(metrics, i));
  }

  /** The names of the metrics rendered so far. */
  ghost predicate Emitted(emitted: set<string>, ms: seq<Metric>) {
    forall k :: k in emitted <==> Lists.HasKey(ms, Named, k)
  }

  lemma EmittedStep(emitted: set<string>, metrics: seq<Metric>, i: nat)
    requires i < |metrics| && Emitted(emitted, metrics[..i])
    ensures Emitted(emitted + {metrics[i].Name()}, metrics[..i + 1])
  {
    assert metrics[..i + 1] == metrics[..i] + [metrics[i]];
    Lists.PushedKey(metrics[..i], metrics[i], Named);
  }

  method RenderMetrics(metrics: seq<Metric>, format: float64 -> string) returns (text: string)
    ensures text == Print(LinesOf(metrics, format))
  {
    text := "";
    var emitted: set<string> := {};
    for i := 0 to |metrics|
      invariant text == Print(LinesOf(metrics[..i], format)) && Emitted(emitted, metrics[..i])
    {
      text := RenderMetric(text, metrics, i, metrics[i].Name() in emitted, format);
      EmittedStep(emitted, metrics, i);
      emitted := emitted + {metrics[i].Name()};
    }
    assert metrics[..|metrics|] == metrics;
  }

  // ---- Metadata comes once, directly before the first sample ----

  function SamplesOf(lines: seq<Line>): seq<Line> {
    if lines == [] then []
    else
      var last := lines[|lines| - 1];
      SamplesOf(lines[..|lines| - 1]) + if last.Sample? then [last] else []
  }

  lemma {:induction false} SamplesOfConcat(a: seq<Line>, b: seq<Line>)
    ensures SamplesOf(a + b) == SamplesOf(a) + SamplesOf(b)
  {
    if b == [] {
      assert a + b == a;
    } else {
      assert (a + b)[..|a + b| - 1] == a + b[..|b| - 1];
      SamplesOfConcat(a, b[..|b| - 1]);
    }
  }

  ghost function Samples(ms: seq<Metric>, format: float64 -> string): (samples: seq<Line>)
    ensures |samples| == |ms|
  {
    seq(|ms|, i requires 0 <= i < |ms| => SampleOf(ms[i], format))
  }

  lemma SamplesStep(ms: seq<Metric>, format: float64 -> string)
    requires ms != []
    ensures Samples(ms, format) == Samples(ms[..|ms| - 1], format) + [SampleOf(ms[|ms| - 1], format)]
  {
  }

  lemma OneSample(before: seq<Line>, meta: seq<Line>, sample: Line)
    requires (forall i :: 0 <= i < |meta| ==> !meta[i].Sample?) && sample.Sample?
    ensures SamplesOf(before + meta + [sample]) == SamplesOf(before) + [sample]
  {
    SamplesOfConcat(before, meta);
    NoSamplesIn(meta);
    assert (before + meta + [sample])[..|before + meta|] == before + meta;
    assert SamplesOf(before) + [] == SamplesOf(before);
  }

  /** The samples of the text are exactly the metrics, in order. */
  lemma {:induction false} EveryMetricSampled(ms: seq<Metric>, format: float64 -> string)
    ensures SamplesOf(LinesOf(ms, format)) == Samples(ms, format)
  {
    if ms != [] {
      var n := |ms| - 1;
      EveryMetricSampled(ms[..n], format);
      SamplesStep(ms, format);
      OneSample(LinesOf(ms[..n], format), Metadata(ms, n), SampleOf(ms[n], format));
    }
  }

  lemma {:induction false} NoSamplesIn(lines: seq<Line>)
    requires forall i :: 0 <= i < |lines| ==> !lines[i].Sample?
    ensures SamplesOf(lines) == []
  {
    if lines != [] {
      NoSamplesIn(lines[..|lines| - 1]);
    }
  }

  ghost predicate Mentions(lines: seq<Line>, name: string) {
    exists i :: 0 <= i < |lines| && lines[i].name == name
  }

  /** A HELP line opens its family: TYPE and a sample of the same name follow at once, and no earlier line names it. */
  ghost predicate OpensFamily(lines: seq<Line>, i: nat) {
    && i + 2 < |lines|
    && lines[i + 1].Type? && lines[i + 1].name == lines[i].name
    && lines[i + 2].Sample? && lines[i + 2].name == lines[i].name
    && !Mentions(lines[..i], lines[i].name)
  }

  /** HELP opens its family, TYPE follows HELP, and the first line that names a family is HELP. */
  ghost predicate Placed(lines: seq<Line>, i: nat)
    requires i < |lines|
  {
    && (lines[i].Help? ==> OpensFamily(lines, i))
    && (lines[i].Type? ==> i > 0 && lines[i - 1].Help?)
    && (!Mentions(lines[..i], lines[i].name) ==> lines[i].Help?)
  }

  /** Every family is announced exactly once, directly before its first sample. */
  ghost predicate Announced(lines: seq<Line>) {
    forall i :: 0 <= i < |lines| ==> Placed(lines, i)
  }

  lemma PlacedStays(lines: seq<Line>, more: seq<Line>, i: nat)
    requires i < |lines| && Placed(lines, i)
    ensures Placed(lines + more, i)
  {
    assert (lines + more)[..i] == lines[..i];
  }

  lemma AnnounceKnown(lines: seq<Line>, sample: Line)
    requires Announced(lines) && sample.Sample? && Mentions(lines, sample.name)
    ensures Announced(lines + [sample])
  {
    var after := lines + [sample];
    assert after[..|lines|] == lines;
    forall i | 0 <= i < |after|
      ensures Placed(after, i)
    {
      if i < |lines| {
        PlacedStays(lines, [sample], i);
      }
    }
  }

  lemma AnnounceNew(lines: seq<Line>, help: Line, kind: Line, sample: Line)
    requires Announced(lines) && help.Help? && kind.Type? && sample.Sample?
    requires help.name == kind.name == sample.name && !Mentions(lines, help.name)
    ensures Announced(lines + [help, kind, sample])
  {
    var after := lines + [help, kind, sample];
    forall i | 0 <= i < |after|
      ensures Placed(after, i)
    {
      if i < |lines| {
        PlacedStays(lines, [help, kind, sample], i);
      } else {
        NewFamilyIsPlaced(lines, help, kind, sample, i - |lines|);
      }
    }
  }

  lemma NewFamilyIsPlaced(lines: seq<Line>, help: Line, kind: Line, sample: Line, k: nat)
    requires help.Help? && kind.Type? && sample.Sample? && k < 3
    requires help.name == kind.name == sample.name && !Mentions(lines, help.name)
    ensures Placed(lines + [help, kind, sample], |lines| + k)
  {
    var after, n := lines + [help, kind, sample], |lines|;
    if k == 0 {
      assert after[..n] == lines;
    } else {
      assert after[..n + k][n] == help;
    }
  }

  lemma AnnounceMetric(before: seq<Line>, help: Line, kind: Line, sample: Line, known: bool)
    requires help.Help? && kind.Type? && sample.Sample? && help.name == kind.name == sample.name
    requires Announced(before) && (known <==> Mentions(before, sample.name))
    ensures
      var after := before + (if known then [] else [help, kind]) + [sample];
      Announced(after) && forall k :: Mentions(after, k) <==> Mentions(before, k) || k == sample.name
  {
    if known {
      assert before + [] == before;
      AnnounceKnown(before, sample);
      MentionsMore(before, [sample], sample.name);
    } else {
      assert before + [help, kind] + [sample] == before + [help, kind, sample];
      AnnounceNew(before, help, kind, sample);
      MentionsMore(before, [help, kind, sample], sample.name);
    }
  }

  /** Metadata comes once per name, directly before the first sample of that name, whatever the metrics. */
  lemma {:induction false} MetadataOnce(ms: seq<Metric>, format: float64 -> string)
    ensures Announced(LinesOf(ms, format))
    ensures forall name :: Mentions(LinesOf(ms, format), name) <==> Lists.HasKey(ms, Named, name)
  {
    if ms != [] {
      var before, m := ms[..|ms| - 1], ms[|ms| - 1];
      MetadataOnce(before, format);
      assert ms == before + [m];
      Lists.PushedKey(before, m, Named);
      var known := Lists.HasKey(before, Named, m.Name());
      AnnounceMetric(LinesOf(before, format), Help(m.Name(), m.family.help), Type(m.Name(), m.kind), SampleOf(m, format), known);
    }
  }

  /** Its help text and its kind are those of the first metric of that name. */
  lemma {:induction false} MetadataIsOfFirst(ms: seq<Metric>, format: float64 -> string, i: nat)
    requires i < |ms| && !Lists.HasKey(ms[..i], Named, ms[i].Name())
    ensures Help(ms[i].Name(), ms[i].family.help) in LinesOf(ms, format)
    ensures Type(ms[i].Name(), ms[i].kind) in LinesOf(ms, format)
  {
    var n := |ms| - 1;
    if i < n {
      assert ms[..n][..i] == ms[..i] && ms[..n][i] == ms[i];
      MetadataIsOfFirst(ms[..n], format, i);
    } else {
      var meta := Metadata(ms, n);
      assert meta[0] in meta && meta[1] in meta;
    }
  }

  lemma MentionsMore(lines: seq<Line>, more: seq<Line>, name: string)
    requires more != [] && forall i :: 0 <= i < |more| ==> more[i].name == name
    ensures forall k :: Mentions(lines + more, k) <==> Mentions(lines, k) || k == name
  {
    var all := lines + more;
    forall k
      ensures Mentions(all, k) <==> Mentions(lines, k) || k == name
    {
      if Mentions(lines, k) {
        var i :| 0 <= i < |lines| && lines[i].name == k;
        assert all[i].name == k;
      }
      assert all[|lines|].name == name;
    }
  }

  // ---- Reading the text back ----

  lemma SampleIsWellFormed(m: Metric, format: float64 -> string)
    requires IsToken(format(m.value))
    ensures WellFormed(SampleOf(m, format))
  {
    assert IsName(TOPIC) && IsName(PARTITION);
  }

  lemma {:induction false} LinesAreWellFormed(ms: seq<Metric>, format: float64 -> string)
    requires forall v: float64 :: IsToken(format(v))
    ensures forall i :: 0 <= i < |LinesOf(ms, format)| ==> WellFormed(LinesOf(ms, format)[i])
  {
    if ms != [] {
      var n := |ms| - 1;
      LinesAreWellFormed(ms[..n], format);
      SampleIsWellFormed(ms[n], format);
    }
  }

  lemma TextReadsBack(lines: seq<Line>)
    requires forall i :: 0 <= i < |lines| ==> WellFormed(lines[i])
    ensures Parse(Print(lines)) == Some(lines)
  {
    PrintedReadsBack(lines, "");
    assert Print(lines) + "" == Print(lines);
    assert lines + [] == lines;
  }

  /**
   * For any snapshot and any topic names, a reader of the text recovers exactly the samples of the snapshot, in order:
   * 20 and 8 for each commit. Every family has one HELP and one TYPE line, directly before its first sample.
   */
  lemma SnapshotReadsBack(stats: Snapshot, format: float64 -> string)
    requires forall v: float64 :: IsToken(format(v))
    ensures
      var ms := ProcessMetrics(stats) + CommitMetrics(stats.commits);
      var lines := LinesOf(ms, format);
      && Parse(Print(lines)) == Some(lines)
      && SamplesOf(lines) == Samples(ms, format)
      && |SamplesOf(lines)| == 20 + 8 * |stats.commits|
      && Announced(lines)
  {
    var ms := ProcessMetrics(stats) + CommitMetrics(stats.commits);
    LinesAreWellFormed(ms, format);
    TextReadsBack(LinesOf(ms, format));
    EveryMetricSampled(ms, format);
    MetadataOnce(ms, format);
  }

  /** The labels of a commit sample give back its topic and its partition number. */
  lemma LabelsNameThePartition(c: Commit)
    ensures PairsOf(CommitLabels(c)) == [("topic", c.topic), ("partition", Text.Decimal(c.partition))]
    ensures Text.Number(PairsOf(CommitLabels(c))[1].1) == c.partition
  {
    Text.DecimalRoundTrip(c.partition);
    assert |TOPIC| != |PARTITION|;
    assert TOPIC in CommitLabels(c);
  }

  // ---- What the text tells ----

  function RoundedCommit(c: Commit): CommitStats<int> {
    CommitStats(c.topic, c.partition, c.initialized, Rounded(c.nextOffset), Rounded(c.highWaterMarkOffset), Rounded(c.lagEstimate),
                Rounded(c.pendingCount), Rounded(c.doneCount), Rounded(c.oldestPendingOffset), Rounded(c.largestPendingGap))
  }

  function RoundedCommits(commits: seq<Commit>): seq<CommitStats<int>> {
    seq(|commits|, i requires 0 <= i < |commits| => RoundedCommit(commits[i]))
  }

  /** The snapshot with every integer rounded to double precision. */
  function RoundedSnapshot(s: Snapshot): Stats<int> {
    Stats(Rounded(s.consumedTotal), Rounded(s.handlerSuccessTotal), Rounded(s.handlerFailureTotal), Rounded(s.handlerRetryTotal),
          Rounded(s.malformedTotal), Rounded(s.deadLetterSuccessTotal), Rounded(s.deadLetterFailureTotal), Rounded(s.pauseTransitionsTotal),
          Rounded(s.resumeTransitionsTotal), Rounded(s.pausedPartitions), s.queueUsageRatio, Rounded(s.queued), Rounded(s.queueCapacity),
          Rounded(s.workers), Rounded(s.submittedTotal), Rounded(s.completedTotal), Rounded(s.rejectedTotal), Rounded(s.inFlightMessages),
          Rounded(s.waitingTasks), Rounded(s.completedMessages), RoundedCommits(s.commits))
  }

  ghost function SnapshotText(stats: Snapshot, format: float64 -> string): string {
    Print(LinesOf(ProcessMetrics(stats) + CommitMetrics(stats.commits), format))
  }

  /** The two metrics print the same labels and value. */
  predicate SameReading(m: Metric, n: Metric) {
    PairsOf(m.labels) == PairsOf(n.labels) && m.value == n.value
  }

  ghost predicate ReadAlike(ms: seq<Metric>, ns: seq<Metric>) {
    |ms| == |ns| && forall k :: 0 <= k < |ms| ==> SameReading(ms[k], ns[k])
  }

  lemma LabelsAreRecoverable(c: Commit, d: Commit)
    requires PairsOf(CommitLabels(c)) == PairsOf(CommitLabels(d))
    ensures c.topic == d.topic && c.partition == d.partition
  {
    LabelsNameThePartition(c);
    LabelsNameThePartition(d);
    var p, q := PairsOf(CommitLabels(c)), PairsOf(CommitLabels(d));
    assert p[0] == q[0] && p[1] == q[1];
  }

  lemma CommitIsRecoverable(c: Commit, d: Commit)
    requires ReadAlike(CommitBlock(c), CommitBlock(d))
    ensures RoundedCommit(c) == RoundedCommit(d)
  {
    var a, b := CommitBlock(c), CommitBlock(d);
    assert SameReading(a[0], b[0]) && SameReading(a[1], b[1]) && SameReading(a[2], b[2]) && SameReading(a[3], b[3]);
    assert SameReading(a[4], b[4]) && SameReading(a[5], b[5]) && SameReading(a[6], b[6]) && SameReading(a[7], b[7]);
    LabelsAreRecoverable(c, d);
  }

  lemma PartsReadAlike(a: seq<Metric>, b: seq<Metric>, c: seq<Metric>, d: seq<Metric>)
    requires |a| == |c| && ReadAlike(a + b, c + d)
    ensures ReadAlike(a, c) && ReadAlike(b, d)
  {
    forall k | 0 <= k < |a|
      ensures SameReading(a[k], c[k])
    {
      assert SameReading((a + b)[k], (c + d)[k]);
    }
    forall k | 0 <= k < |b|
      ensures SameReading(b[k], d[k])
    {
      assert SameReading((a + b)[|a| + k], (c + d)[|a| + k]);
    }
  }

  lemma {:induction false} CommitsAreRecoverable(cs: seq<Commit>, ds: seq<Commit>)
    requires ReadAlike(CommitMetrics(cs), CommitMetrics(ds))
    ensures RoundedCommits(cs) == RoundedCommits(ds)
  {
    if cs != [] {
      var n := |cs| - 1;
      PartsReadAlike(CommitMetrics(cs[..n]), CommitBlock(cs[n]), CommitMetrics(ds[..n]), CommitBlock(ds[n]));
      CommitsAreRecoverable(cs[..n], ds[..n]);
      CommitIsRecoverable(cs[n], ds[n]);
      RoundedCommitsStep(cs);
      RoundedCommitsStep(ds);
    }
  }

  lemma RoundedCommitsStep(cs: seq<Commit>)
    requires cs != []
    ensures RoundedCommits(cs) == RoundedCommits(cs[..|cs| - 1]) + [RoundedCommit(cs[|cs| - 1])]
  {
  }

  lemma DeliveryIsRecoverable(s: Snapshot, t: Snapshot)
    requires ReadAlike(ProcessMetrics(s), ProcessMetrics(t))
    ensures Rounded(s.consumedTotal) == Rounded(t.consumedTotal)
    ensures Rounded(s.handlerSuccessTotal) == Rounded(t.handlerSuccessTotal)
    ensures Rounded(s.handlerFailureTotal) == Rounded(t.handlerFailureTotal)
    ensures Rounded(s.handlerRetryTotal) == Rounded(t.handlerRetryTotal)
    ensures Rounded(s.malformedTotal) == Rounded(t.malformedTotal)
    ensures Rounded(s.deadLetterSuccessTotal) == Rounded(t.deadLetterSuccessTotal)
    ensures Rounded(s.deadLetterFailureTotal) == Rounded(t.deadLetterFailureTotal)
    ensures Rounded(s.pauseTransitionsTotal) == Rounded(t.pauseTransitionsTotal)
    ensures Rounded(s.resumeTransitionsTotal) == Rounded(t.resumeTransitionsTotal)
    ensures Rounded(s.pausedPartitions) == Rounded(t.pausedPartitions)
  {
    var a, b := ProcessMetrics(s), ProcessMetrics(t);
    assert SameReading(a[0], b[0]) && SameReading(a[1], b[1]) && SameReading(a[2], b[2]) && SameReading(a[3], b[3]) && SameReading(a[4], b[4]);
    assert SameReading(a[5], b[5]) && SameReading(a[6], b[6]) && SameReading(a[7], b[7]) && SameReading(a[8], b[8]) && SameReading(a[9], b[9]);
  }

  lemma PoolIsRecoverable(s: Snapshot, t: Snapshot)
    requires ReadAlike(ProcessMetrics(s), ProcessMetrics(t))
    ensures s.queueUsageRatio == t.queueUsageRatio && Rounded(s.queued) == Rounded(t.queued) && Rounded(s.queueCapacity) == Rounded(t.queueCapacity)
    ensures Rounded(s.workers) == Rounded(t.workers)
    ensures Rounded(s.submittedTotal) == Rounded(t.submittedTotal)
    ensures Rounded(s.completedTotal) == Rounded(t.completedTotal)
    ensures Rounded(s.rejectedTotal) == Rounded(t.rejectedTotal)
    ensures Rounded(s.inFlightMessages) == Rounded(t.inFlightMessages)
    ensures Rounded(s.waitingTasks) == Rounded(t.waitingTasks)
    ensures Rounded(s.completedMessages) == Rounded(t.completedMessages)
  {
    var a, b := ProcessMetrics(s), ProcessMetrics(t);
    assert SameReading(a[10], b[10]) && SameReading(a[11], b[11]) && SameReading(a[12], b[12]) && SameReading(a[13], b[13]) && SameReading(a[14], b[14]);
    assert SameReading(a[15], b[15]) && SameReading(a[16], b[16]) && SameReading(a[17], b[17]) && SameReading(a[18], b[18]) && SameReading(a[19], b[19]);
  }

  lemma ProcessIsRecoverable(s: Snapshot, t: Snapshot)
    requires RoundedCommits(s.commits) == RoundedCommits(t.commits)
    requires ReadAlike(ProcessMetrics(s), ProcessMetrics(t))
    ensures RoundedSnapshot(s) == RoundedSnapshot(t)
  {
    DeliveryIsRecoverable(s, t);
    PoolIsRecoverable(s, t);
  }

  lemma SnapshotIsRecoverable(s: Snapshot, t: Snapshot)
    requires ReadAlike(ProcessMetrics(s) + CommitMetrics(s.commits), ProcessMetrics(t) + CommitMetrics(t.commits))
    ensures RoundedSnapshot(s) == RoundedSnapshot(t)
  {
    PartsReadAlike(ProcessMetrics(s), CommitMetrics(s.commits), ProcessMetrics(t), CommitMetrics(t.commits));
    CommitsAreRecoverable(s.commits, t.commits);
    ProcessIsRecoverable(s, t);
  }

  lemma SamplesDetermine(ms: seq<Metric>, ns: seq<Metric>, format: float64 -> string)
    requires Samples(ms, format) == Samples(ns, format)
    requires forall v: float64, w: float64 :: format(v) == format(w) ==> v == w
    ensures ReadAlike(ms, ns)
  {
    assert |Samples(ms, format)| == |Samples(ns, format)|;
    forall k | 0 <= k < |ms|
      ensures SameReading(ms[k], ns[k])
    {
      assert Samples(ms, format)[k] == Samples(ns, format)[k];
      assert SampleOf(ms[k], format).labels == SampleOf(ns[k], format).labels;
    }
  }

  lemma {:induction false} RoundedCommitsPrintAlike(cs: seq<Commit>, ds: seq<Commit>)
    requires RoundedCommits(cs) == RoundedCommits(ds)
    ensures CommitMetrics(cs) == CommitMetrics(ds)
  {
    assert |cs| == |RoundedCommits(cs)| == |RoundedCommits(ds)| == |ds|;
    if cs != [] {
      var n := |cs| - 1;
      RoundedCommitsStep(cs);
      RoundedCommitsStep(ds);
      var a, b := RoundedCommits(cs), RoundedCommits(ds);
      assert a[..n] == RoundedCommits(cs[..n]) && b[..n] == RoundedCommits(ds[..n]);
      RoundedCommitsPrintAlike(cs[..n], ds[..n]);
      assert a[n] == b[n];
      RoundedCommitPrintsAlike(cs[n], ds[n]);
    }
  }

  lemma RoundedCommitPrintsAlike(c: Commit, d: Commit)
    requires RoundedCommit(c) == RoundedCommit(d)
    ensures CommitBlock(c) == CommitBlock(d)
  {
  }

  lemma RoundedPrintsAlike(s: Snapshot, t: Snapshot)
    requires RoundedSnapshot(s) == RoundedSnapshot(t)
    ensures ProcessMetrics(s) == ProcessMetrics(t)
  {
  }

  /**
   * Where doubles are written apart, two snapshots have the same text if and only if they agree once every integer is
   * rounded to double precision.
   */
  lemma TextDeterminesSnapshot(s: Snapshot, t: Snapshot, format: float64 -> string)
    requires forall v: float64 :: IsToken(format(v))
    requires forall v: float64, w: float64 :: format(v) == format(w) ==> v == w
    ensures SnapshotText(s, format) == SnapshotText(t, format) <==> RoundedSnapshot(s) == RoundedSnapshot(t)
  {
    if SnapshotText(s, format) == SnapshotText(t, format) {
      SnapshotReadsBack(s, format);
      SnapshotReadsBack(t, format);
      SamplesDetermine(ProcessMetrics(s) + CommitMetrics(s.commits), ProcessMetrics(t) + CommitMetrics(t.commits), format);
      SnapshotIsRecoverable(s, t);
    }
    if RoundedSnapshot(s) == RoundedSnapshot(t) {
      RoundedCommitsPrintAlike(s.commits, t.commits);
      RoundedPrintsAlike(s, t);
    }
  }

  /** A count a double holds exactly. */
  predicate Small(n: int64) {
    -TWO53 <= n <= TWO53
  }

  predicate SmallCommit(c: Commit) {
    && Small(c.nextOffset) && Small(c.highWaterMarkOffset) && Small(c.lagEstimate) && Small(c.pendingCount)
    && Small(c.doneCount) && Small(c.oldestPendingOffset) && Small(c.largestPendingGap)
  }

  predicate SmallSnapshot(s: Snapshot) {
    && Small(s.consumedTotal) && Small(s.handlerSuccessTotal) && Small(s.handlerFailureTotal) && Small(s.handlerRetryTotal)
    && Small(s.malformedTotal) && Small(s.deadLetterSuccessTotal) && Small(s.deadLetterFailureTotal) && Small(s.pauseTransitionsTotal)
    && Small(s.resumeTransitionsTotal) && Small(s.pausedPartitions) && Small(s.queued) && Small(s.queueCapacity)
    && Small(s.workers) && Small(s.submittedTotal) && Small(s.completedTotal) && Small(s.rejectedTotal)
    && Small(s.inFlightMessages) && Small(s.waitingTasks) && Small(s.completedMessages)
    && forall c <- s.commits :: SmallCommit(c)
  }

  lemma SmallCommitsAreExact(cs: seq<Commit>, ds: seq<Commit>)
    requires (forall c <- cs :: SmallCommit(c)) && (forall d <- ds :: SmallCommit(d))
    requires RoundedCommits(cs) == RoundedCommits(ds)
    ensures cs == ds
  {
    assert |cs| == |RoundedCommits(cs)| == |RoundedCommits(ds)| == |ds|;
    forall i | 0 <= i < |cs|
      ensures cs[i] == ds[i]
    {
      assert RoundedCommits(cs)[i] == RoundedCommits(ds)[i];
      assert cs[i] in cs && ds[i] in ds;
      SmallCommitIsExact(cs[i], ds[i]);
    }
  }

  lemma SmallCommitIsExact(c: Commit, d: Commit)
    requires SmallCommit(c) && SmallCommit(d) && RoundedCommit(c) == RoundedCommit(d)
    ensures c == d
  {
    forall n: int64 | Small(n)
      ensures Rounded(n) == n
    {
      SmallIsExact(n);
    }
  }

  /** While no count exceeds 2^53, the text tells snapshots apart. */
  lemma TextDeterminesSmallSnapshot(s: Snapshot, t: Snapshot, format: float64 -> string)
    requires forall v: float64 :: IsToken(format(v))
    requires forall v: float64, w: float64 :: format(v) == format(w) ==> v == w
    requires SmallSnapshot(s) && SmallSnapshot(t)
    ensures SnapshotText(s, format) == SnapshotText(t, format) <==> s == t
  {
    TextDeterminesSnapshot(s, t, format);
    if RoundedSnapshot(s) == RoundedSnapshot(t) {
      SmallSnapshotIsExact(s, t);
    }
  }

  lemma SmallSnapshotIsExact(s: Snapshot, t: Snapshot)
    requires SmallSnapshot(s) && SmallSnapshot(t) && RoundedSnapshot(s) == RoundedSnapshot(t)
    ensures s == t
  {
    SmallCommitsAreExact(s.commits, t.commits);
    forall n: int64 | Small(n)
      ensures Rounded(n) == n
    {
      SmallIsExact(n);
    }
  }

  /** Beyond it does not: 2^53 and 2^53 + 1 records consumed print the same text, whatever the number format. */
  lemma LargeCountsCollide(s: Snapshot, format: float64 -> string)
    ensures
      var t, u := s.(consumedTotal := 9007199254740992), s.(consumedTotal := 9007199254740993);
      t != u && SnapshotText(t, format) == SnapshotText(u, format)
  {
    var t, u := s.(consumedTotal := 9007199254740992), s.(consumedTotal := 9007199254740993);
    NextIsRounded();
    SmallIsExact(TWO53);
    assert RoundedSnapshot(t) == RoundedSnapshot(u);
    RoundedPrintsAlike(t, u);
  }
}
