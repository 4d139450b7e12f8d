/** The older C plugin context (c/out_pulsar/pulsar_context.c): the
    context's initial state and required fields, the producer settings read
    from the older property names, and the configuration log that creation
    builds line by line in a fixed 4096-byte buffer with
    `append_log_text`. */
module LegacyContext {
  import opened Common
  import opened PulsarApi
  import opened ProducerOptions

  /** `PULSAR_DEFAULT_MEMORY_LIMIT` of the older plugin: a memory limit is
      taken (and logged) only above it. */
  const LegacyMemoryLimit: nat := 1024
  /** The size of `config_log`. */
  const ConfigLogSize: nat := 4096

  // Property keys of the older plugin.
  const MemoryLimitKey := "MemoryLimit"
  const ProducerNameKey := "ProducerName"
  const CompressTypeKey := "CompressType"
  const SendTimeoutKey := "SendTimeout"
  const BatchingEnabledKey := "BatchingEnabled"
  const BatchingMaxMessagesKey := "BatchingMaxMessages"
  const BatchingMaxBytesKey := "BatchingMaxBytes"
  const BatchingMaxDelayKey := "BatchingMaxPublishDelay"
  const BlockIfQueueFullKey := "BlockIfQueueFull"
  const MaxPendingMessagesKey := "MaxPendingMessages"
  const MaxPendingAcrossPartitionsKey := "MaxPendingMessagesAcrossPartitions"

  /** A label of the configuration log: the name indented by four spaces
      and followed by a colon, padded with spaces to 40 characters. */
  function Label(name: string): (r: string)
    requires |name| <= 35
    ensures |r| == 40
  {
    "    " + name + ":" + seq(35 - |name|, _ => ' ')
  }

  lemma LabelNulFree(name: string)
    requires |name| <= 35 && NulFree(name)
    ensures NulFree(Label(name))
  {
  }

  // Labels of the configuration log, in program order.
  const IntroLabel := "init pulsar ok !!!"
  const IntroValue := " config:"
  const UrlLabel := Label("PulsarUrl")
  const TokenLabel := Label("Token")
  const MemoryLimitLabel := Label(MemoryLimitKey)
  const ProducerNameLabel := Label(ProducerNameKey)
  const TopicLabel := Label("Topic")
  const CompressTypeLabel := Label(CompressTypeKey)
  const SendTimeoutLabel := Label(SendTimeoutKey)
  const BatchingEnabledLabel := Label(BatchingEnabledKey)
  const BatchingMaxMessagesLabel := Label(BatchingMaxMessagesKey)
  const BatchingMaxBytesLabel := Label(BatchingMaxBytesKey)
  const BatchingMaxDelayLabel := Label(BatchingMaxDelayKey)
  const BlockIfQueueFullLabel := Label(BlockIfQueueFullKey)
  const MaxPendingMessagesLabel := Label(MaxPendingMessagesKey)
  const MaxPendingAcrossPartitionsLabel := Label(MaxPendingAcrossPartitionsKey)

  // ---------------------------------------------------------------------
  // Log lines

  /** One `append_log_text(plog, key, value)` call. */
  type Line = (string, string)

  function LogLine(l: Line): string {
    l.0 + l.1 + "\n"
  }

  /** The text a run of appends leaves at the start of the buffer. */
  function LogText(lines: seq<Line>): string {
    if lines == [] then [] else LogText(lines[..|lines| - 1]) + LogLine(lines[|lines| - 1])
  }

  lemma LogTextSnoc(lines: seq<Line>, l: Line)
    ensures LogText(lines + [l]) == LogText(lines) + LogLine(l)
  {
    assert (lines + [l])[..|lines|] == lines;
  }

  /** The log of two runs of appends is the concatenation of their logs. */
  lemma {:induction false} LogTextConcat(a: seq<Line>, b: seq<Line>)
    ensures LogText(a + b) == LogText(a) + LogText(b)
  {
    if b != [] {
      var b' := b[..|b| - 1];
      assert a + b == (a + b') + [b[|b| - 1]];
      assert b == b' + [b[|b| - 1]];
      var x := b[|b| - 1];
      calc {
        LogText(a + b);
        { LogTextSnoc(a + b', x); }
        LogText(a + b') + LogLine(x);
        { LogTextConcat(a, b'); }
        LogText(a) + LogText(b') + LogLine(x);
        { LogTextSnoc(b', x); }
        LogText(a) + LogText(b);
      }
    } else {
      assert a + b == a;
    }
  }

  /** `'\n'`. */
  const Newline: byte := 10

  /** The C strings `append_log_text(plog, key, value)` is handed hold no NUL. */
  predicate LineNulFree(l: Line) {
    NulFree(l.0) && NulFree(l.1)
  }

  /** `while (*src) *config++ = *src++;` over the bytes of `text`: copy
      them to `buf[at..]` up to their terminator, and return the position
      after them. */
  method CopyCString(buf: array<byte>, at: nat, text: string) returns (next: nat)
    requires NulFree(text) && at + |Utf8(text)| <= buf.Length
    modifies buf
    ensures next == at + |Utf8(text)|
    ensures forall k :: 0 <= k < buf.Length ==>
              buf[k] == if at <= k < next then Utf8(text)[k - at] else old(buf[k])
  {
    var src := Utf8(text) + [0];
    Utf8NulFree(text);
    next := at;
    var i := 0;
    while src[i] != 0
      invariant 0 <= i <= |Utf8(text)| && next == at + i
      invariant forall k :: 0 <= k < buf.Length ==>
                  buf[k] == if at <= k < next then src[k - at] else old(buf[k])
      decreases |Utf8(text)| - i
    {
      buf[next] := src[i];
      next := next + 1;
      i := i + 1;
    }
    assert src[i] == 0 && 0 !in Utf8(text);
  }

  /** `append_log_text`: copy the bytes of `key`, then those of `value`,
      then a newline to `buf[pos..]`, and return the position after the
      newline. No terminator is written and nothing outside the copied span
      changes. */
  method AppendLogText(buf: array<byte>, pos: nat, key: string, value: string) returns (next: nat)
    requires NulFree(key) && NulFree(value)
    requires pos + |Utf8(key)| + |Utf8(value)| + 1 <= buf.Length
    modifies buf
    ensures next == pos + |Utf8(key)| + |Utf8(value)| + 1
    ensures buf[..pos] == old(buf[..pos])
    ensures buf[pos..next] == Utf8(key) + Utf8(value) + [Newline]
    ensures buf[next..] == old(buf[next..])
  {
    ghost var b0 := buf[..];
    var mid := CopyCString(buf, pos, key);
    ghost var b1 := buf[..];
    next := CopyCString(buf, mid, value);
    buf[next] := Newline;
    next := next + 1;
    var written := Utf8(key) + Utf8(value) + [Newline];
    forall k | pos <= k < next
      ensures buf[k] == written[k - pos]
    {
      if k < mid {
        assert b1[k] == Utf8(key)[k - pos];
      }
    }
    assert buf[pos..next] == written;
  }

  /** The bytes a line leaves in the buffer are the encoding of its text. */
  lemma LineBytes(l: Line)
    ensures Utf8(LogLine(l)) == Utf8(l.0) + Utf8(l.1) + [Newline]
  {
    Utf8Concat(l.0 + l.1, "\n");
    Utf8Concat(l.0, l.1);
  }

  /** `buf` holds the encoded log of `lines` in its first `pos` bytes, with
      no zero among them, and zeros after them. */
  ghost predicate LogHolds(buf: array<byte>, pos: nat, lines: seq<Line>)
    reads buf
  {
    pos == |Utf8(LogText(lines))| <= buf.Length && buf[..pos] == Utf8(LogText(lines)) &&
    0 !in buf[..pos] && forall k :: pos <= k < buf.Length ==> buf[k] == 0
  }

  /** One `plog = append_log_text(plog, key, value)` step, with the lines
      appended so far as a ghost record. */
  method AppendLine(buf: array<byte>, pos: nat, ghost lines: seq<Line>, key: string, value: string)
    returns (next: nat)
    requires LineNulFree((key, value))
    requires LogHolds(buf, pos, lines) && |Utf8(LogText(lines + [(key, value)]))| <= buf.Length
    modifies buf
    ensures LogHolds(buf, next, lines + [(key, value)])
  {
    ghost var line := Utf8(key) + Utf8(value) + [Newline];
    LogBytesSnoc(lines, (key, value));
    Utf8NulFree(key);
    Utf8NulFree(value);
    assert 0 !in line;
    next := AppendLogText(buf, pos, key, value);
    assert buf[..next] == buf[..pos] + line by {
      assert buf[..next] == buf[..pos] + buf[pos..next];
    }
    assert forall k :: next <= k < buf.Length ==> buf[k] == buf[next..][k - next];
  }

  /** Appending a line appends its bytes to the encoded log. */
  lemma LogBytesSnoc(lines: seq<Line>, l: Line)
    ensures Utf8(LogText(lines + [l])) == Utf8(LogText(lines)) + (Utf8(l.0) + Utf8(l.1) + [Newline])
  {
    LogTextSnoc(lines, l);
    Utf8Concat(LogText(lines), LogLine(l));
    LineBytes(l);
  }

  // ---------------------------------------------------------------------
  // The configuration log of creation

  /** The broker URL, token and topic of a context that passed the
      required-field check. */
  datatype Endpoint = Endpoint(url: string, token: Option<string>, topic: string)

  /** A line logged when the property is present, with its text. */
  function PresentLine(props: Properties, key: string, tag: string): (r: seq<Line>)
    ensures key in props ==> r == [(tag, props[key])]
    ensures key !in props ==> r == []
  {
    if key in props then [(tag, props[key])] else []
  }

  /** A line logged when the property's `atol` value is above `floor`,
      with its text. */
  function AboveLine(props: Properties, key: string, tag: string, floor: int): (r: seq<Line>)
    ensures r != [] <==> key in props && Atol(props[key]) > floor
    ensures r != [] ==> r == [(tag, props[key])]
  {
    if SettingAbove(GetProperty(props, key), floor).Some? then [(tag, props[key])] else []
  }

  /** What step `k` of creation (1 to 15, in program order) appends to the
      configuration log: nothing, or one line. The steps come in the groups
      of `flb_out_pulsar_create`: the client (1-4), the producer's name, topic,
      compression and send timeout (5-8), batching (9-12) and queueing
      (13-15). */
  function StageLine(k: nat, e: Endpoint, props: Properties): (r: seq<Line>)
    ensures |r| <= 1
  {
    if k <= 4 then ClientLine(k, e, props)
    else if k <= 8 then NamingLine(k, e, props)
    else if k <= 12 then BatchingLine(k, props)
    else QueueingLine(k, props)
  }

  /** Lines 79-98 of c/out_pulsar/pulsar_context.c. */
  function ClientLine(k: nat, e: Endpoint, props: Properties): (r: seq<Line>)
    ensures |r| <= 1
  {
    match k
    case 1 => [(IntroLabel, IntroValue)]
    case 2 => [(UrlLabel, e.url)]
    case 3 => if e.token.Some? then [(TokenLabel, e.token.value)] else []
    case 4 => AboveLine(props, MemoryLimitKey, MemoryLimitLabel, LegacyMemoryLimit)
    case _ => []
  }

  /** Lines 112-145 of c/out_pulsar/pulsar_context.c, with the topic line
      corrected. */
  function NamingLine(k: nat, e: Endpoint, props: Properties): (r: seq<Line>)
    ensures |r| <= 1
  {
    match k
    case 5 => PresentLine(props, ProducerNameKey, ProducerNameLabel)
    case 6 => [(TopicLabel, e.topic)]
    case 7 => PresentLine(props, CompressTypeKey, CompressTypeLabel)
    case 8 => AboveLine(props, SendTimeoutKey, SendTimeoutLabel, 0)
    case _ => []
  }

  /** Lines 147-171 of c/out_pulsar/pulsar_context.c. */
  function BatchingLine(k: nat, props: Properties): (r: seq<Line>)
    ensures |r| <= 1
  {
    match k
    case 9 => PresentLine(props, BatchingEnabledKey, BatchingEnabledLabel)
    case 10 => AboveLine(props, BatchingMaxMessagesKey, BatchingMaxMessagesLabel, 0)
    case 11 => AboveLine(props, BatchingMaxBytesKey, BatchingMaxBytesLabel, 0)
    case 12 => AboveLine(props, BatchingMaxDelayKey, BatchingMaxDelayLabel, 0)
    case _ => []
  }

  /** Lines 173-196 of c/out_pulsar/pulsar_context.c. */
  function QueueingLine(k: nat, props: Properties): (r: seq<Line>)
    ensures |r| <= 1
  {
    match k
    case 13 => PresentLine(props, BlockIfQueueFullKey, BlockIfQueueFullLabel)
    case 14 => AboveLine(props, MaxPendingMessagesKey, MaxPendingMessagesLabel, 0)
    case 15 => AboveLine(props, MaxPendingAcrossPartitionsKey, MaxPendingAcrossPartitionsLabel, 0)
    case _ => []
  }

  /** The endpoint's strings are C strings. */
  predicate EndpointNulFree(e: Endpoint) {
    NulFree(e.url) && NulFree(e.topic) && (e.token.Some? ==> NulFree(e.token.value))
  }

  /** Every line a step logs is made of C strings: the labels are, and so
      are the endpoint's strings and the host's property values. */
  lemma StageLineNulFree(k: nat, e: Endpoint, props: Properties)
    requires EndpointNulFree(e) && CValues(props)
    ensures forall l :: l in StageLine(k, e, props) ==> LineNulFree(l)
  {
    if k <= 4 {
      ClientLabelsNulFree();
    } else if k <= 8 {
      NamingLabelsNulFree();
    } else if k <= 12 {
      BatchingLabelsNulFree();
    } else {
      QueueingLabelsNulFree();
    }
  }

  lemma ClientLabelsNulFree()
    ensures NulFree(IntroLabel) && NulFree(IntroValue) && NulFree(UrlLabel)
    ensures NulFree(TokenLabel) && NulFree(MemoryLimitLabel)
  {
    LabelNulFree("PulsarUrl");
    LabelNulFree("Token");
    LabelNulFree(MemoryLimitKey);
  }

  lemma NamingLabelsNulFree()
    ensures NulFree(ProducerNameLabel) && NulFree(TopicLabel)
    ensures NulFree(CompressTypeLabel) && NulFree(SendTimeoutLabel)
  {
    LabelNulFree(ProducerNameKey);
    LabelNulFree("Topic");
    LabelNulFree(CompressTypeKey);
    LabelNulFree(SendTimeoutKey);
  }

  lemma BatchingLabelsNulFree()
    ensures NulFree(BatchingEnabledLabel) && NulFree(BatchingMaxMessagesLabel)
    ensures NulFree(BatchingMaxBytesLabel) && NulFree(BatchingMaxDelayLabel)
  {
    LabelNulFree(BatchingEnabledKey);
    LabelNulFree(BatchingMaxMessagesKey);
    LabelNulFree(BatchingMaxBytesKey);
    LabelNulFree(BatchingMaxDelayKey);
  }

  lemma QueueingLabelsNulFree()
    ensures NulFree(BlockIfQueueFullLabel) && NulFree(MaxPendingMessagesLabel)
    ensures NulFree(MaxPendingAcrossPartitionsLabel)
  {
    LabelNulFree(BlockIfQueueFullKey);
    LabelNulFree(MaxPendingMessagesKey);
    LabelNulFree(MaxPendingAcrossPartitionsKey);
  }

  /** The lines of the first `n` steps. */
  function Lines(n: nat, e: Endpoint, props: Properties): seq<Line> {
    if n == 0 then [] else Lines(n - 1, e, props) + StageLine(n, e, props)
  }

  /** Every line of a successful creation. */
  function ConfigLines(e: Endpoint, props: Properties): seq<Line> {
    Lines(15, e, props)
  }

  /** The encoded log of lines that begin others is no longer than theirs. */
  lemma LogTextOfPrefix(a: seq<Line>, b: seq<Line>)
    requires a <= b
    ensures |Utf8(LogText(a))| <= |Utf8(LogText(b))|
  {
    assert b == a + b[|a|..];
    LogTextConcat(a, b[|a|..]);
    Utf8Concat(LogText(a), LogText(b[|a|..]));
  }

  /** The lines of the first `i` steps begin the lines of the first `j`. */
  lemma {:induction false} LinesPrefix(i: nat, j: nat, e: Endpoint, props: Properties)
    requires i <= j
    ensures Lines(i, e, props) <= Lines(j, e, props)
    ensures |Utf8(LogText(Lines(i, e, props)))| <= |Utf8(LogText(Lines(j, e, props)))|
  {
    if i < j {
      LinesPrefix(i, j - 1, e, props);
    }
    LogTextOfPrefix(Lines(i, e, props), Lines(j, e, props));
  }

  /** The corrected log always carries the topic, on the line after the
      optional producer name. */
  lemma TopicLogged(e: Endpoint, props: Properties)
    ensures |Lines(5, e, props)| < |ConfigLines(e, props)| &&
            ConfigLines(e, props)[|Lines(5, e, props)|] == (TopicLabel, e.topic)
  {
    var l5 := Lines(5, e, props);
    assert Lines(6, e, props) == l5 + [(TopicLabel, e.topic)];
    LinesPrefix(6, 15, e, props);
    assert Lines(6, e, props)[|l5|] == (TopicLabel, e.topic);
  }

  /** A compression property is logged whether or not it names a supported
      compression type; only a supported one reaches the producer. */
  lemma CompressTypeAlwaysLogged(e: Endpoint, props: Properties)
    requires CompressTypeKey in props
    ensures StageLine(7, e, props) == [(CompressTypeLabel, props[CompressTypeKey])]
    ensures (LegacyProducerSettings(props).compression.Some? <==>
             exists c :: EqualsIgnoreCase(CompressionName(c), props[CompressTypeKey]))
  {
    CompressionParsing(props[CompressTypeKey], CompressionNone);
  }

  /** The memory limit is logged exactly when its value exceeds 1024. */
  lemma MemoryLimitLogged(e: Endpoint, props: Properties)
    ensures StageLine(4, e, props) != [] <==>
              MemoryLimitKey in props && Atol(props[MemoryLimitKey]) > LegacyMemoryLimit
  {
    var v := GetProperty(props, MemoryLimitKey);
    assert StageLine(4, e, props) != [] <==> SettingAbove(v, LegacyMemoryLimit).Some?;
  }

  /** A numeric producer property is logged exactly when it is applied,
      that is, when its value is positive. */
  lemma NumericLoggedIffApplied(e: Endpoint, props: Properties)
    ensures var s := LegacyProducerSettings(props);
      (StageLine(8, e, props) != [] <==> s.sendTimeoutMs.Some?) &&
      (StageLine(10, e, props) != [] <==> s.batchingMaxMessages.Some?) &&
      (StageLine(11, e, props) != [] <==> s.batchingMaxBytes.Some?) &&
      (StageLine(12, e, props) != [] <==> s.batchingMaxPublishDelay.Some?) &&
      (StageLine(14, e, props) != [] <==> s.maxPendingMessages.Some?) &&
      (StageLine(15, e, props) != [] <==> s.maxPendingMessagesAcrossPartitions.Some?)
    ensures StageLine(8, e, props) != [] <==> SendTimeoutKey in props && Atol(props[SendTimeoutKey]) > 0
  {
    var s := LegacyProducerSettings(props);
    assert s.sendTimeoutMs == SettingAbove(GetProperty(props, SendTimeoutKey), 0);
    assert s.batchingMaxMessages == SettingAbove(GetProperty(props, BatchingMaxMessagesKey), 0);
    assert s.batchingMaxBytes == SettingAbove(GetProperty(props, BatchingMaxBytesKey), 0);
    assert s.batchingMaxPublishDelay == SettingAbove(GetProperty(props, BatchingMaxDelayKey), 0);
    assert s.maxPendingMessages == SettingAbove(GetProperty(props, MaxPendingMessagesKey), 0);
    assert s.maxPendingMessagesAcrossPartitions == SettingAbove(GetProperty(props, MaxPendingAcrossPartitionsKey), 0);
  }

  /** Step 6 as line 119 writes it: the value passed under the topic
      label is the producer-name property, and with no producer name it is
      NULL, which `append_log_text` dereferences (`None`). */
  function TopicLineAsWritten(props: Properties): Option<Line> {
    if ProducerNameKey in props then Some((TopicLabel, props[ProducerNameKey])) else None
  }

  /** With producer name "p" and topic "t", the line under the topic label
      reads "p"; without a producer name there is no line at all. */
  lemma TopicLineMislabelled()
    ensures var props := map[ProducerNameKey := "p"];
            var e := Endpoint("pulsar://h", None, "t");
            TopicLineAsWritten(props) == Some((TopicLabel, "p")) &&
            StageLine(6, e, props) == [(TopicLabel, "t")]
    ensures TopicLineAsWritten(map[]).None?
  {
  }

  // ---------------------------------------------------------------------
  // Producer settings and the context

  /** The producer settings of the older plugin: no routing, hashing or
      crypto properties, the same parsing and threshold rules otherwise. */
  function LegacyProducerSettings(props: Properties): ProducerSettings {
    ProducerSettings(
      producerName := GetProperty(props, ProducerNameKey),
      compression := ParseCompression(GetProperty(props, CompressTypeKey)),
      sendTimeoutMs := SettingAbove(GetProperty(props, SendTimeoutKey), 0),
      routingMode := None,
      batchingEnabled := ParseBool(GetProperty(props, BatchingEnabledKey)),
      batchingMaxMessages := SettingAbove(GetProperty(props, BatchingMaxMessagesKey), 0),
      batchingMaxBytes := SettingAbove(GetProperty(props, BatchingMaxBytesKey), 0),
      batchingMaxPublishDelay := SettingAbove(GetProperty(props, BatchingMaxDelayKey), 0),
      blockIfQueueFull := ParseBool(GetProperty(props, BlockIfQueueFullKey)),
      maxPendingMessages := SettingAbove(GetProperty(props, MaxPendingMessagesKey), 0),
      maxPendingMessagesAcrossPartitions := SettingAbove(GetProperty(props, MaxPendingAcrossPartitionsKey), 0),
      hashingScheme := None,
      cryptoFailureAction := None)
  }

  /** The non-ghost fields of an older context that the model keeps. */
  datatype LegacyFields = LegacyFields(
    url: Option<string>,
    token: Option<string>,
    topic: Option<string>,
    showInterval: nat,
    totalNumber: nat,
    failedNumber: nat,
    successNumber: nat,
    producer: ProducerSettings)

  /** `flb_out_pulsar_ctx` of the older plugin; `sent` records, in order,
      the payloads handed to the producer. */
  class LegacyContextState {
    var url: Option<string>
    var token: Option<string>
    var topic: Option<string>
    var showInterval: nat
    var totalNumber: nat
    var failedNumber: nat
    var successNumber: nat
    var producer: ProducerSettings
    ghost var sent: seq<Bytes>

    function Fields(): LegacyFields
      reads this
    {
      LegacyFields(url, token, topic, showInterval, totalNumber, failedNumber, successNumber, producer)
    }

    /** `flb_calloc` and the field initialisation that follows it. */
    constructor ()
      ensures url.None? && token.None? && topic.None?
      ensures totalNumber == 0 && failedNumber == 0 && successNumber == 0
      ensures showInterval == DefaultShowInterval && producer == UnsetProducerSettings && sent == []
    {
      url := None;
      token := None;
      topic := None;
      showInterval := DefaultShowInterval;
      totalNumber := 0;
      failedNumber := 0;
      successNumber := 0;
      producer := UnsetProducerSettings;
      sent := [];
    }
  }

  /** What `flb_output_config_map_set` stores: whether it succeeded, and the
      mapped fields (`None` for NULL, or for a show interval left at its
      initial value). */
  datatype LegacyConfig = LegacyConfig(
    loaded: bool,
    url: Option<string>,
    token: Option<string>,
    topic: Option<string>,
    showInterval: Option<nat>)

  /** What the host and the client library answer during creation. */
  datatype LegacyEnvironment = LegacyEnvironment(allocates: bool, clientCreated: bool, producerResult: PulsarResult)

  predicate LoadingFails(cfg: LegacyConfig, allocates: bool) {
    !allocates || !cfg.loaded || cfg.url.None? || cfg.topic.None?
  }

  predicate CreationFails(cfg: LegacyConfig, env: LegacyEnvironment) {
    LoadingFails(cfg, env.allocates) || !env.clientCreated || env.producerResult != ResultOk
  }

  /** The fields of a loaded context: the mapped configuration over zero
      counters and the default show interval. */
  function Loaded(cfg: LegacyConfig): LegacyFields {
    LegacyFields(cfg.url, cfg.token, cfg.topic, cfg.showInterval.GetOr(DefaultShowInterval),
                 0, 0, 0, UnsetProducerSettings)
  }

  /** The endpoint of a configuration that passes the required-field check. */
  function EndpointOf(cfg: LegacyConfig): Endpoint
    requires cfg.url.Some? && cfg.topic.Some?
  {
    Endpoint(cfg.url.value, cfg.token, cfg.topic.value)
  }

  /** The mapped strings are C strings: none holds a NUL. */
  predicate ConfigNulFree(cfg: LegacyConfig) {
    (cfg.url.Some? ==> NulFree(cfg.url.value)) &&
    (cfg.token.Some? ==> NulFree(cfg.token.value)) &&
    (cfg.topic.Some? ==> NulFree(cfg.topic.value))
  }

  /** The room the configuration log needs: its bytes and a terminator fit
      in the 4096 bytes of `config_log`. */
  predicate LogFits(cfg: LegacyConfig, props: Properties) {
    cfg.url.Some? && cfg.topic.Some? ==>
      |Utf8(LogText(ConfigLines(EndpointOf(cfg), props)))| < ConfigLogSize
  }

  /** `flb_out_pulsar_create` of the older plugin, with the topic line
      logging the topic: load the context and check its required fields,
      log the client part, then settle and log the producer part. On
      success `log` is the C string `config_log` holds, which is what the
      logger is handed: the bytes of every logged line, in program order. */
  method Create(cfg: LegacyConfig, props: Properties, env: LegacyEnvironment)
    returns (ctx: LegacyContextState?, log: Bytes)
    requires ConfigNulFree(cfg) && CValues(props)
    requires LogFits(cfg, props)
    ensures ctx == null <==> CreationFails(cfg, env)
    ensures ctx != null ==>
              fresh(ctx) && ctx.sent == [] &&
              ctx.Fields() == Loaded(cfg).(producer := LegacyProducerSettings(props)) &&
              log == Utf8(LogText(ConfigLines(EndpointOf(cfg), props)))
    ensures ctx != null ==> |log| < ConfigLogSize
  {
    var buf := new byte[ConfigLogSize](_ => 0);
    ctx := LoadContext(cfg, env.allocates);
    if ctx == null {
      return null, [];
    }
    var e := Endpoint(ctx.url.value, ctx.token, ctx.topic.value);
    assert LogHolds(buf, 0, Lines(0, e, props));
    var pos := LogClient(props, buf, e);
    if !env.clientCreated {
      return null, [];
    }
    pos := ConfigureProducer(ctx, props, buf, pos, e);
    if env.producerResult != ResultOk {
      return null, [];
    }
    assert buf[..] == buf[..pos] + [0] + buf[pos + 1..];
    CStringOfTerminated(buf[..pos], buf[pos + 1..]);
    log := CString(buf[..]);
  }

  /** Lines 39-74: allocate and initialise the context, load the mapped
      configuration, and insist on a URL and a topic. */
  method LoadContext(cfg: LegacyConfig, allocates: bool) returns (ctx: LegacyContextState?)
    ensures ctx == null <==> LoadingFails(cfg, allocates)
    ensures ctx != null ==> fresh(ctx) && ctx.Fields() == Loaded(cfg) && ctx.sent == []
  {
    if !allocates {
      return null;
    }
    ctx := new LegacyContextState();
    if !cfg.loaded {
      return null;
    }
    ctx.url := cfg.url;
    ctx.token := cfg.token;
    ctx.topic := cfg.topic;
    if cfg.showInterval.Some? {
      ctx.showInterval := cfg.showInterval.value;
    }
    if ctx.url.None? || ctx.topic.None? {
      return null;
    }
  }

  /** Step `k` of the log: append the line it has, if any. The callers
      count the steps in a variable, so that each call is related to the
      log so far rather than to the whole log unrolled. */
  method LogStage(buf: array<byte>, pos: nat, k: nat, e: Endpoint, props: Properties, extra: seq<Line>) returns (next: nat)
    requires 1 <= k <= 15 && extra == StageLine(k, e, props)
    requires LogHolds(buf, pos, Lines(k - 1, e, props))
    requires EndpointNulFree(e) && CValues(props)
    requires |Utf8(LogText(ConfigLines(e, props)))| <= buf.Length
    modifies buf
    ensures LogHolds(buf, next, Lines(k, e, props))
  {
    LinesPrefix(k, 15, e, props);
    ghost var lines := Lines(k - 1, e, props);
    assert Lines(k, e, props) == lines + extra;
    if extra == [] {
      assert lines + extra == lines;
      next := pos;
    } else {
      assert extra == [(extra[0].0, extra[0].1)];
      StageLineNulFree(k, e, props);
      next := AppendLine(buf, pos, lines, extra[0].0, extra[0].1);
    }
  }

  /** Lines 79-98: the introduction, the URL, the token when there is one,
      and the memory limit when it is above 1024. */
  method LogClient(props: Properties, buf: array<byte>, e: Endpoint) returns (pos: nat)
    requires LogHolds(buf, 0, Lines(0, e, props))
    requires EndpointNulFree(e) && CValues(props)
    requires |Utf8(LogText(ConfigLines(e, props)))| <= buf.Length
    modifies buf
    ensures LogHolds(buf, pos, Lines(4, e, props))
  {
    var step := 1;
    pos := LogStage(buf, 0, step, e, props, StageLine(step, e, props));
    step := step + 1;
    pos := LogStage(buf, pos, step, e, props, StageLine(step, e, props));
    step := step + 1;
    pos := LogStage(buf, pos, step, e, props, StageLine(step, e, props));
    step := step + 1;
    pos := LogStage(buf, pos, step, e, props, StageLine(step, e, props));
  }

  /** Lines 110-196: the producer settings, and a log line for each
      property present (or above its threshold), the topic among them. */
  method ConfigureProducer(ctx: LegacyContextState, props: Properties, buf: array<byte>, pos: nat, e: Endpoint)
    returns (next: nat)
    requires LogHolds(buf, pos, Lines(4, e, props))
    requires EndpointNulFree(e) && CValues(props)
    requires |Utf8(LogText(ConfigLines(e, props)))| <= buf.Length
    modifies ctx`producer, buf
    ensures ctx.producer == LegacyProducerSettings(props)
    ensures LogHolds(buf, next, ConfigLines(e, props))
  {
    ctx.producer := LegacyProducerSettings(props);
    next := LogProducerNaming(props, buf, pos, e);
    next := LogBatching(props, buf, next, e);
    next := LogQueueing(props, buf, next, e);
  }

  /** Lines 112-145: producer name, topic, compression type, send timeout. */
  method LogProducerNaming(props: Properties, buf: array<byte>, pos: nat, e: Endpoint) returns (next: nat)
    requires LogHolds(buf, pos, Lines(4, e, props))
    requires EndpointNulFree(e) && CValues(props)
    requires |Utf8(LogText(ConfigLines(e, props)))| <= buf.Length
    modifies buf
    ensures LogHolds(buf, next, Lines(8, e, props))
  {
    var step := 5;
    next := LogStage(buf, pos, step, e, props, StageLine(step, e, props));
    step := step + 1;
    next := LogStage(buf, next, step, e, props, StageLine(step, e, props));
    step := step + 1;
    next := LogStage(buf, next, step, e, props, StageLine(step, e, props));
    step := step + 1;
    next := LogStage(buf, next, step, e, props, StageLine(step, e, props));
  }

  /** Lines 147-171: the batching properties. */
  method LogBatching(props: Properties, buf: array<byte>, pos: nat, e: Endpoint) returns (next: nat)
    requires LogHolds(buf, pos, Lines(8, e, props))
    requires EndpointNulFree(e) && CValues(props)
    requires |Utf8(LogText(ConfigLines(e, props)))| <= buf.Length
    modifies buf
    ensures LogHolds(buf, next, Lines(12, e, props))
  {
    var step := 9;
    next := LogStage(buf, pos, step, e, props, StageLine(step, e, props));
    step := step + 1;
    next := LogStage(buf, next, step, e, props, StageLine(step, e, props));
    step := step + 1;
    next := LogStage(buf, next, step, e, props, StageLine(step, e, props));
    step := step + 1;
    next := LogStage(buf, next, step, e, props, StageLine(step, e, props));
  }

  /** Lines 173-196: blocking on a full queue and the pending-message limits. */
  method LogQueueing(props: Properties, buf: array<byte>, pos: nat, e: Endpoint) returns (next: nat)
    requires LogHolds(buf, pos, Lines(12, e, props))
    requires EndpointNulFree(e) && CValues(props)
    requires |Utf8(LogText(ConfigLines(e, props)))| <= buf.Length
    modifies buf
    ensures LogHolds(buf, next, ConfigLines(e, props))
  {
    var step := 13;
    next := LogStage(buf, pos, step, e, props, StageLine(step, e, props));
    step := step + 1;
    next := LogStage(buf, next, step, e, props, StageLine(step, e, props));
    step := step + 1;
    next := LogStage(buf, next, step, e, props, StageLine(step, e, props));
  }
}
