/** The newer C plugin context (out_pulsar/pulsar_context.c): the output
    schema and its names, the masked view of the authentication token, the
    synchronous and asynchronous senders with the completion callback that
    owns an asynchronous send's message, and the creation of the context
    from the host's configuration. The Pulsar client, the host's logger and
    the property store answer through parameters. */
module PulsarContext {
  import opened Common
  import opened PulsarApi
  import opened ProducerOptions

  /** `PULSAR_DEFAULT_MEMORY_LIMIT`: a memory limit is applied only above it. */
  const DefaultMemoryLimit: nat := 8088608
  /** `PULSAR_AUTH_TOKEN_MASK_LEN`: the width of the printed token. */
  const AuthTokenMaskLen: nat := 16

  // Configuration keys read through the host's property store.
  const DataSchemaKey := "dataSchema"
  const MemoryLimitKey := "memoryLimitBytes"
  const ProducerNameKey := "producerName"
  const SendTimeoutKey := "sendTimeoutMs"
  const BatchingEnabledKey := "batchingEnabled"
  const BatchingMaxMessagesKey := "batchingMaxMessages"
  const BatchingMaxBytesKey := "batchingMaxBytes"
  const BatchingMaxDelayKey := "batchingMaxPublishDelayMicros"
  const BlockIfQueueFullKey := "blockIfQueueFull"
  const CompressionTypeKey := "compressionType"
  const CryptoFailureActionKey := "cryptoFailureAction"
  const HashingSchemeKey := "hashingScheme"
  const MessageRoutingModeKey := "messageRoutingMode"
  const MaxPendingMessagesKey := "maxPendingMessages"
  const MaxPendingAcrossPartitionsKey := "maxPendingMessagesAcrossPartitions"

  // ---------------------------------------------------------------------
  // Output schema

  /** `FLB_PULSAR_SCHEMA_JSON` (0), `FLB_PULSAR_SCHEMA_MSGP` (1) and
      `FLB_PULSAR_SCHEMA_GELF` (2). */
  datatype Schema = SchemaJson | SchemaMsgpack | SchemaGelf

  /** `get_config_output_schema`. */
  function SchemaName(s: Schema): string {
    match s
    case SchemaMsgpack => "MSGPACK"
    case SchemaGelf => "GELF"
    case SchemaJson => "JSON"
  }

  /** The if/else-if chain on the `dataSchema` property, in program order. */
  const SchemaTable: seq<(string, Schema)> := [
    ("JSON", SchemaJson), ("MSGPACK", SchemaMsgpack), ("GELF", SchemaGelf)]

  /** The schema after the `dataSchema` property is read: a recognised name
      replaces `current`, an absent or unrecognised one keeps it. */
  function ParseSchema(pvalue: Option<string>, current: Schema): Schema {
    if pvalue.None? then current else Lookup(SchemaTable, pvalue.value).GetOr(current)
  }

  /** Where `SchemaTable` lists each value. */
  function SchemaIndex(d: Schema): nat {
    match d
    case SchemaJson => 0
    case SchemaMsgpack => 1
    case SchemaGelf => 2
  }

  /** `SchemaTable` lists every schema once, under its printed name, and no
      two of its names are equal ignoring case. */
  lemma SchemaTableNames()
    ensures NamesTable(SchemaTable, SchemaName, SchemaIndex)
    ensures DistinctNames(SchemaTable)
  {
    DifferAt("JSON", "GELF", 0);
  }

  /** Schema parsing recognises exactly the three names in any case, leaves
      the schema alone otherwise, and inverts `SchemaName`. */
  lemma SchemaParsing(s: string, current: Schema, schema: Schema)
    ensures ParseSchema(None, current) == current
    ensures (forall d :: !EqualsIgnoreCase(SchemaName(d), s)) ==> ParseSchema(Some(s), current) == current
    ensures (exists d :: EqualsIgnoreCase(SchemaName(d), s)) ==>
              EqualsIgnoreCase(SchemaName(ParseSchema(Some(s), current)), s)
    ensures ParseSchema(Some(SchemaName(schema)), current) == schema
  {
    SchemaTableNames();
    ParsingByNames(SchemaTable, SchemaName, SchemaIndex, s, schema);
  }

  // ---------------------------------------------------------------------
  // Sender selection

  /** The two values `send_msg_func` can hold. */
  datatype SendStrategy = SendSync | SendAsync

  /** The sender chosen from `is_async` when the context is created. */
  function StrategyFor(isAsync: bool): (f: SendStrategy)
    ensures f == SendAsync <==> isAsync
    ensures f == SendSync <==> !isAsync
  {
    if isAsync then SendAsync else SendSync
  }

  // ---------------------------------------------------------------------
  // Token masking

  /** `'*'`, the byte the masked view is padded with. */
  const Star: byte := 42

  function Stars(k: nat): Bytes {
    seq(k, _ => Star)
  }

  /** The first `size` bytes `mask_memory(buf, size, src, |src|, n)` leaves
      in `buf`. */
  function Masked(src: Bytes, size: nat, n: nat): (r: Bytes)
    requires 2 * n <= size && n <= |src|
    ensures |r| == size
    ensures r[..n] == src[..n]
    ensures forall i :: n <= i < size - n ==> r[i] == Star
    ensures r[size - n..] == src[|src| - n..]
    ensures forall i :: 0 <= i < size ==> r[i] == Star || r[i] in src
  {
    src[..n] + Stars(size - 2 * n) + src[|src| - n..]
  }

  /** How many bytes of a token `len` bytes long stay visible at each end of
      the masked view: none below 4 bytes, 2 below 8, 4 below 16, and 6
      from 16 on. */
  function KeptEnds(len: nat): (n: nat)
    ensures 2 * n <= len && 2 * n <= AuthTokenMaskLen
    ensures len < 4 ==> n == 0
    ensures 4 <= len < 8 ==> n == 2
    ensures 8 <= len < 16 ==> n == 4
    ensures 16 <= len ==> n == 6
  {
    if len < 4 then 0 else if len < 8 then 2 else if len < 16 then 4 else 6
  }

  /** The 16 bytes `get_pulsar_auth_token` shows for a token whose bytes
      are `token`: `KeptEnds(strlen)` bytes at each end, stars between. */
  function MaskedToken(token: Bytes): (r: Bytes)
    ensures |r| == AuthTokenMaskLen
    ensures var n := KeptEnds(|token|);
            r[..n] == token[..n] && r[AuthTokenMaskLen - n..] == token[|token| - n..] &&
            forall i :: n <= i < AuthTokenMaskLen - n ==> r[i] == Star
    ensures 0 !in token ==> 0 !in r
  {
    Masked(token, AuthTokenMaskLen, KeptEnds(|token|))
  }

  /** The view depends on the token only through its length and its kept
      ends: the hidden middle never shows. */
  lemma MaskedTokenHidesMiddle(a: Bytes, b: Bytes)
    requires |a| == |b|
    requires var n := KeptEnds(|a|); a[..n] == b[..n] && a[|a| - n..] == b[|b| - n..]
    ensures MaskedToken(a) == MaskedToken(b)
  {
  }

  /** The kept ends are counted in bytes: the three characters of "ééé"
      are six bytes, so two bytes (one "é") show at each end. */
  lemma MaskedTokenCountsBytes()
    ensures Utf8("\U{E9}\U{E9}\U{E9}") == [0xC3, 0xA9, 0xC3, 0xA9, 0xC3, 0xA9]
    ensures MaskedToken(Utf8("\U{E9}\U{E9}\U{E9}")) == [0xC3, 0xA9] + Stars(12) + [0xC3, 0xA9]
  {
    var t := Utf8("\U{E9}\U{E9}\U{E9}");
    assert t == [0xC3, 0xA9, 0xC3, 0xA9, 0xC3, 0xA9];
    assert KeptEnds(|t|) == 2;
  }

  /** `memcpy(buf + at, src, |src|)`. */
  method CopyInto(buf: array<byte>, at: nat, src: Bytes)
    requires at + |src| <= buf.Length
    modifies buf
    ensures forall k :: 0 <= k < buf.Length ==>
              buf[k] == if at <= k < at + |src| then src[k - at] else old(buf[k])
  {
    var i := 0;
    while i < |src|
      invariant 0 <= i <= |src|
      invariant forall k :: 0 <= k < buf.Length ==>
                  buf[k] == if at <= k < at + i then src[k - at] else old(buf[k])
    {
      buf[at + i] := src[i];
      i := i + 1;
    }
  }

  /** `memset(buf + at, c, count)`. */
  method FillWith(buf: array<byte>, at: nat, c: byte, count: nat)
    requires at + count <= buf.Length
    modifies buf
    ensures forall k :: 0 <= k < buf.Length ==>
              buf[k] == if at <= k < at + count then c else old(buf[k])
  {
    var i := 0;
    while i < count
      invariant 0 <= i <= count
      invariant forall k :: 0 <= k < buf.Length ==>
                  buf[k] == if at <= k < at + i then c else old(buf[k])
    {
      buf[at + i] := c;
      i := i + 1;
    }
  }

  /** `mask_memory`: the first `n` and the last `n` bytes of `src[..len]`
      around `size - 2n` stars; the rest of `buf` untouched. */
  method MaskMemory(buf: array<byte>, size: nat, src: Bytes, len: nat, n: nat)
    requires size <= buf.Length && 2 * n <= size && n <= len <= |src|
    modifies buf
    ensures buf[..size] == Masked(src[..len], size, n)
    ensures buf[size..] == old(buf[size..])
  {
    ghost var b0 := buf[..];
    CopyInto(buf, 0, src[..n]);
    ghost var b1 := buf[..];
    FillWith(buf, n, Star, size - 2 * n);
    ghost var b2 := buf[..];
    CopyInto(buf, size - n, src[len - n..len]);
    var r := Masked(src[..len], size, n);
    forall k | 0 <= k < size
      ensures buf[k] == r[k]
    {
      if k < n {
        assert b1[k] == src[k] && b2[k] == b1[k];
        assert r[k] == r[..n][k] == src[..len][..n][k];
      } else if k < size - n {
        assert b2[k] == Star;
      } else {
        assert buf[k] == src[len - n..len][k - (size - n)];
        assert r[k] == r[size - n..][k - (size - n)] == src[..len][len - n..][k - (size - n)];
      }
    }
    assert buf[size..] == b0[size..];
  }

  /** The static 17-byte buffer behind `get_pulsar_auth_token`: it starts
      zeroed and keeps what the last masking wrote, so its 17th byte is
      always its terminator. */
  class AuthTokenView {
    const text: array<byte>

    ghost predicate Valid()
      reads this, text
    {
      text.Length == AuthTokenMaskLen + 1 && text[AuthTokenMaskLen] == 0
    }

    constructor ()
      ensures Valid() && fresh(text)
      ensures text[..] == seq(AuthTokenMaskLen + 1, _ => 0)
    {
      text := new byte[AuthTokenMaskLen + 1](_ => 0);
    }
  }

  // ---------------------------------------------------------------------
  // Context, senders and the completion callback

  /** What the client settings of a created context ask for: token
      authentication, and a memory limit when one is applied. */
  datatype ClientSettings = ClientSettings(authenticated: bool, memoryLimit: Option<int>)

  /** What the plugin owns and gives back: the message of a send, the
      callback context of an asynchronous send, the id handed to the
      callback. */
  datatype Resource = MessageRes(m: Message) | CallbackRes(p: CallbackCtx) | MessageIdRes(id: MessageId)

  predicate Distinct<T(==)>(s: seq<T>) {
    forall i, j :: 0 <= i < j < |s| ==> s[i] != s[j]
  }

  /** The non-ghost fields of a context. */
  datatype ContextFields = ContextFields(
    brokerUrl: Option<string>,
    authToken: Option<string>,
    topic: Option<string>,
    isAsync: bool,
    showInterval: nat,
    dataSchema: Schema,
    totalNumber: nat,
    failedNumber: nat,
    successNumber: nat,
    discardedNumber: nat,
    client: ClientSettings,
    producer: ProducerSettings,
    sendMsgFunc: SendStrategy)

  /** `struct pulsar_callback_ctx`: the context and message of one
      asynchronous send, handed to the completion callback. */
  class CallbackCtx {
    const ctx: PulsarContextState
    const msg: Message

    constructor (ctx: PulsarContextState, msg: Message)
      ensures this.ctx == ctx && this.msg == msg
    {
      this.ctx := ctx;
      this.msg := msg;
    }
  }

  /** `flb_out_pulsar_ctx`. Besides the struct's fields, ghost fields keep
      the sends awaiting their callback, the resources released so far, in
      order, and the payloads handed to the producer, in order. */
  class PulsarContextState {
    var brokerUrl: Option<string>
    var authToken: Option<string>
    var topic: Option<string>
    var isAsync: bool
    var showInterval: nat
    var dataSchema: Schema
    var totalNumber: nat
    var failedNumber: nat
    var successNumber: nat
    var discardedNumber: nat
    var client: ClientSettings
    var producer: ProducerSettings
    var sendMsgFunc: SendStrategy
    ghost var pending: set<CallbackCtx>
    ghost var released: seq<Resource>
    ghost var sent: seq<Bytes>

    /** The struct's configuration and counters, as one value. */
    function Fields(): ContextFields
      reads this
    {
      ContextFields(brokerUrl, authToken, topic, isAsync, showInterval, dataSchema,
                    totalNumber, failedNumber, successNumber, discardedNumber,
                    client, producer, sendMsgFunc)
    }

    /** Every pending send belongs to this context and owns its own message;
        nothing is released twice, and nothing still pending is released. */
    ghost predicate Valid()
      reads this`pending, this`released
    {
      (forall p :: p in pending ==> p.ctx == this) &&
      (forall p, q :: p in pending && q in pending && p.msg == q.msg ==> p == q) &&
      Distinct(released) &&
      (forall p :: p in pending ==> CallbackRes(p) !in released && MessageRes(p.msg) !in released)
    }

    /** `flb_calloc` and the field initialisation that follows it. */
    constructor ()
      ensures Valid()
      ensures brokerUrl.None? && authToken.None? && topic.None? && !isAsync
      ensures totalNumber == 0 && failedNumber == 0 && successNumber == 0 && discardedNumber == 0
      ensures dataSchema == SchemaJson && showInterval == DefaultShowInterval
      ensures client == ClientSettings(false, None) && producer == UnsetProducerSettings && sendMsgFunc == SendSync
      ensures pending == {} && released == [] && sent == []
    {
      brokerUrl := None;
      authToken := None;
      topic := None;
      isAsync := false;
      showInterval := DefaultShowInterval;
      dataSchema := SchemaJson;
      totalNumber := 0;
      failedNumber := 0;
      successNumber := 0;
      discardedNumber := 0;
      client := ClientSettings(false, None);
      producer := UnsetProducerSettings;
      sendMsgFunc := SendSync;
      pending := {};
      released := [];
      sent := [];
    }
  }

  /** `flb_pulsar_send_callback`: the client reports the outcome `code` of
      the asynchronous send `pcctx`. A failure is counted as discarded, a
      success changes no counter; the message id (when there is one), the
      message and the callback context are then released, once each. */
  method SendCallback(code: PulsarResult, msgId: MessageId?, pcctx: CallbackCtx)
    requires pcctx.ctx.Valid() && pcctx in pcctx.ctx.pending
    requires msgId != null ==> MessageIdRes(msgId) !in pcctx.ctx.released
    modifies pcctx.ctx`discardedNumber, pcctx.ctx`pending, pcctx.ctx`released
    ensures pcctx.ctx.Valid()
    ensures pcctx.ctx.discardedNumber == old(pcctx.ctx.discardedNumber) + (if code == ResultOk then 0 else 1)
    ensures pcctx.ctx.pending == old(pcctx.ctx.pending) - {pcctx}
    ensures pcctx.ctx.released == old(pcctx.ctx.released) +
              (if msgId != null then [MessageIdRes(msgId)] else []) +
              [MessageRes(pcctx.msg), CallbackRes(pcctx)]
  {
    var ctx := pcctx.ctx;
    if code != ResultOk {
      ctx.discardedNumber := ctx.discardedNumber + 1;
    }
    if msgId != null {
      ctx.released := ctx.released + [MessageIdRes(msgId)];
    }
    ctx.released := ctx.released + [MessageRes(pcctx.msg)];
    ctx.pending := ctx.pending - {pcctx};
    ctx.released := ctx.released + [CallbackRes(pcctx)];
  }

  /** Once completed, a send can no longer be completed: its context has
      left the pending set and both its resources are released. */
  lemma CallbackCompletesOnce(ctx: PulsarContextState, pcctx: CallbackCtx)
    requires ctx.Valid() && CallbackRes(pcctx) in ctx.released
    ensures pcctx !in ctx.pending
  {
  }

  /** `pulsar_send_msg`: one message with `data` goes to the producer, which
      answers `reply`; the message is released on either outcome. */
  method SendSyncMsg(ctx: PulsarContextState, data: Bytes, reply: PulsarResult) returns (ok: bool, ghost message: Message)
    requires ctx.Valid()
    modifies ctx`sent, ctx`released
    ensures ctx.Valid()
    ensures ok <==> reply == ResultOk
    ensures fresh(message) && message.content == data
    ensures ctx.sent == old(ctx.sent) + [data]
    ensures ctx.released == old(ctx.released) + [MessageRes(message)]
  {
    var m := new Message(data);
    ctx.sent := ctx.sent + [m.content];
    var ret := reply;
    ctx.released := ctx.released + [MessageRes(m)];
    message := m;
    ok := ret == ResultOk;
  }

  /** `pulsar_async_send`: one message with `data` is queued together with a
      new callback context that points at `ctx` and the message. */
  method SendAsyncMsg(ctx: PulsarContextState, data: Bytes) returns (ok: bool, ghost pcctx: CallbackCtx)
    requires ctx.Valid()
    modifies ctx`sent, ctx`pending
    ensures ctx.Valid()
    ensures ok
    ensures fresh(pcctx) && fresh(pcctx.msg)
    ensures pcctx.ctx == ctx && pcctx.msg.content == data
    ensures ctx.pending == old(ctx.pending) + {pcctx}
    ensures ctx.sent == old(ctx.sent) + [data]
  {
    var m := new Message(data);
    var p := new CallbackCtx(ctx, m);
    ctx.pending := ctx.pending + {p};
    ctx.sent := ctx.sent + [m.content];
    pcctx := p;
    ok := true;
  }

  /** `ctx->send_msg_func(ctx, data, len)`: the sender chosen at creation.
      `reply` is the producer's answer, used only by the synchronous one.
      The ghost outputs name the message the synchronous sender creates and
      releases, or the callback context the asynchronous one leaves pending. */
  method SendMsg(ctx: PulsarContextState, data: Bytes, reply: PulsarResult)
    returns (ok: bool, ghost message: Message?, ghost pcctx: CallbackCtx?)
    requires ctx.Valid()
    modifies ctx`sent, ctx`pending, ctx`released
    ensures ctx.Valid()
    ensures ctx.sent == old(ctx.sent) + [data]
    ensures ctx.sendMsgFunc == SendSync ==>
              (ok <==> reply == ResultOk) && ctx.pending == old(ctx.pending) &&
              message != null && fresh(message) && message.content == data &&
              ctx.released == old(ctx.released) + [MessageRes(message)]
    ensures ctx.sendMsgFunc == SendAsync ==>
              ok && ctx.released == old(ctx.released) &&
              pcctx != null && fresh(pcctx) && fresh(pcctx.msg) &&
              pcctx.ctx == ctx && pcctx.msg.content == data &&
              ctx.pending == old(ctx.pending) + {pcctx}
  {
    match ctx.sendMsgFunc
    case SendSync =>
      ok, message := SendSyncMsg(ctx, data, reply);
      pcctx := null;
    case SendAsync =>
      ok, pcctx := SendAsyncMsg(ctx, data);
      message := null;
  }

  // ---------------------------------------------------------------------
  // Creation

  /** What `flb_output_config_map_set` stores in the context: whether it
      succeeded, and the mapped fields (`None` for a NULL string, or for a
      show interval the map leaves at its initial value). */
  datatype MappedConfig = MappedConfig(
    loaded: bool,
    brokerUrl: Option<string>,
    authToken: Option<string>,
    topic: Option<string>,
    isAsync: bool,
    showInterval: Option<nat>)

  /** What the host and the client library answer during creation: whether
      the context allocation and the client creation succeed, and the
      producer creation's result. */
  datatype Environment = Environment(allocates: bool, clientCreated: bool, producerResult: PulsarResult)

  /** The client settings creation asks for: token authentication for a
      non-empty token, and the memory limit above the default. */
  function NewClientSettings(authToken: Option<string>, props: Properties): (c: ClientSettings)
    ensures c.authenticated <==> authToken.Some? && authToken.value != ""
    ensures c.memoryLimit.Some? ==> c.memoryLimit.value > DefaultMemoryLimit
  {
    ClientSettings(authToken.Some? && |authToken.value| > 0,
                   SettingAbove(GetProperty(props, MemoryLimitKey), DefaultMemoryLimit))
  }

  /** The producer settings creation asks for: each property read, parsed
      and filtered by its rule, in program order. */
  function NewProducerSettings(props: Properties): ProducerSettings {
    ProducerSettings(
      producerName := GetProperty(props, ProducerNameKey),
      compression := ParseCompression(GetProperty(props, CompressionTypeKey)),
      sendTimeoutMs := SettingAbove(GetProperty(props, SendTimeoutKey), 0),
      routingMode := ParseRoutingMode(GetProperty(props, MessageRoutingModeKey)),
      batchingEnabled := ParseBool(GetProperty(props, BatchingEnabledKey)),
      batchingMaxMessages := SettingAbove(GetProperty(props, BatchingMaxMessagesKey), 0),
      batchingMaxBytes := SettingAbove(GetProperty(props, BatchingMaxBytesKey), 0),
      batchingMaxPublishDelay := SettingAbove(GetProperty(props, BatchingMaxDelayKey), 0),
      blockIfQueueFull := ParseBool(GetProperty(props, BlockIfQueueFullKey)),
      maxPendingMessages := SettingAbove(GetProperty(props, MaxPendingMessagesKey), 0),
      maxPendingMessagesAcrossPartitions := SettingAbove(GetProperty(props, MaxPendingAcrossPartitionsKey), 0),
      hashingScheme := ParseHashingScheme(GetProperty(props, HashingSchemeKey)),
      cryptoFailureAction := ParseCryptoFailureAction(GetProperty(props, CryptoFailureActionKey)))
  }

  /** Every numeric producer setting that is applied is positive, and the
      schema is JSON unless the property names another schema. */
  lemma CreatedSettingsRules(props: Properties)
    ensures var ps := NewProducerSettings(props);
            (ps.sendTimeoutMs.Some? ==> ps.sendTimeoutMs.value > 0) &&
            (ps.batchingMaxMessages.Some? ==> ps.batchingMaxMessages.value > 0) &&
            (ps.batchingMaxBytes.Some? ==> ps.batchingMaxBytes.value > 0) &&
            (ps.batchingMaxPublishDelay.Some? ==> ps.batchingMaxPublishDelay.value > 0) &&
            (ps.maxPendingMessages.Some? ==> ps.maxPendingMessages.value > 0) &&
            (ps.maxPendingMessagesAcrossPartitions.Some? ==> ps.maxPendingMessagesAcrossPartitions.value > 0)
    ensures ParseSchema(GetProperty(props, DataSchemaKey), SchemaJson) != SchemaJson ==>
              GetProperty(props, DataSchemaKey).Some? &&
              EqualsIgnoreCase(SchemaName(ParseSchema(GetProperty(props, DataSchemaKey), SchemaJson)), GetProperty(props, DataSchemaKey).value)
  {
    if GetProperty(props, DataSchemaKey).Some? {
      SchemaParsing(GetProperty(props, DataSchemaKey).value, SchemaJson, SchemaJson);
    }
  }

  /** The fields of a context once the mapped configuration is loaded:
      the initial values, overwritten by what the map holds. */
  function Loaded(config: MappedConfig): ContextFields {
    ContextFields(
      brokerUrl := config.brokerUrl,
      authToken := config.authToken,
      topic := config.topic,
      isAsync := config.isAsync,
      showInterval := config.showInterval.GetOr(DefaultShowInterval),
      dataSchema := SchemaJson,
      totalNumber := 0,
      failedNumber := 0,
      successNumber := 0,
      discardedNumber := 0,
      client := ClientSettings(false, None),
      producer := UnsetProducerSettings,
      sendMsgFunc := SendSync)
  }

  /** The fields of a context that creation returns: the loaded
      configuration with zero counters, the sender `is_async` selects, the
      client and producer settings, and the schema the property names (JSON
      when it names none). */
  function Created(config: MappedConfig, props: Properties): ContextFields {
    Loaded(config).(
      sendMsgFunc := StrategyFor(config.isAsync),
      client := NewClientSettings(config.authToken, props),
      producer := NewProducerSettings(props),
      dataSchema := ParseSchema(GetProperty(props, DataSchemaKey), SchemaJson))
  }

  /** Loading fails when the allocation or the configuration map fails, or
      when the broker URL or the topic is missing. */
  predicate LoadingFails(config: MappedConfig, allocates: bool) {
    !allocates || !config.loaded || config.brokerUrl.None? || config.topic.None?
  }

  /** Creation fails exactly when one of its steps fails. */
  predicate CreationFails(config: MappedConfig, env: Environment) {
    LoadingFails(config, env.allocates) || !env.clientCreated || env.producerResult != ResultOk
  }

  /** `flb_out_pulsar_create`: load the context, set up the client and the
      producer, and print the configuration with the masked token. */
  method Create(config: MappedConfig, props: Properties, env: Environment, view: AuthTokenView)
    returns (ctx: PulsarContextState?)
    requires view.Valid()
    requires config.authToken.Some? ==> NulFree(config.authToken.value)
    modifies view.text
    ensures view.Valid()
    ensures ctx == null <==> CreationFails(config, env)
    ensures ctx != null ==>
              fresh(ctx) && ctx.Valid() && ctx.Fields() == Created(config, props) &&
              ctx.pending == {} && ctx.released == [] && ctx.sent == []
    ensures ctx != null && config.authToken.Some? ==>
              view.text[..AuthTokenMaskLen] == MaskedToken(Utf8(config.authToken.value))
    ensures (ctx == null || config.authToken.None?) ==> view.text[..] == old(view.text[..])
  {
    ctx := LoadContext(config, env.allocates);
    if ctx == null {
      return;
    }
    var ok := ConnectProducer(ctx, props, env);
    if !ok {
      return null;
    }
    var shown := GetAuthToken(ctx, view);
  }

  /** The first part of `flb_out_pulsar_create`: allocate and initialise the
      context, load the mapped configuration, and insist on a broker URL and
      a topic. */
  method LoadContext(config: MappedConfig, allocates: bool) returns (ctx: PulsarContextState?)
    ensures ctx == null <==> LoadingFails(config, allocates)
    ensures ctx != null ==>
              fresh(ctx) && ctx.Valid() && ctx.Fields() == Loaded(config) &&
              ctx.pending == {} && ctx.released == [] && ctx.sent == []
  {
    if !allocates {
      return null;
    }
    ctx := new PulsarContextState();
    if !config.loaded {
      return null;
    }
    ctx.brokerUrl := config.brokerUrl;
    ctx.authToken := config.authToken;
    ctx.topic := config.topic;
    ctx.isAsync := config.isAsync;
    if config.showInterval.Some? {
      ctx.showInterval := config.showInterval.value;
    }
    if ctx.brokerUrl.None? || ctx.topic.None? {
      return null;
    }
  }

  /** The second part of `flb_out_pulsar_create`: choose the sender, settle
      the client settings and create the client, settle the producer
      settings and create the producer, then parse the schema. `ok` is false
      when the client or the producer cannot be created. */
  method ConnectProducer(ctx: PulsarContextState, props: Properties, env: Environment) returns (ok: bool)
    modifies ctx
    ensures ok <==> env.clientCreated && env.producerResult == ResultOk
    ensures ok ==> ctx.Fields() == old(ctx.Fields()).(
                      sendMsgFunc := StrategyFor(old(ctx.isAsync)),
                      client := NewClientSettings(old(ctx.authToken), props),
                      producer := NewProducerSettings(props),
                      dataSchema := ParseSchema(GetProperty(props, DataSchemaKey), old(ctx.dataSchema)))
    ensures ctx.pending == old(ctx.pending) && ctx.released == old(ctx.released) && ctx.sent == old(ctx.sent)
  {
    ctx.sendMsgFunc := StrategyFor(ctx.isAsync);
    ctx.client := NewClientSettings(ctx.authToken, props);
    if !env.clientCreated {
      return false;
    }
    ctx.producer := NewProducerSettings(props);
    if env.producerResult != ResultOk {
      return false;
    }
    ctx.dataSchema := ParseSchema(GetProperty(props, DataSchemaKey), ctx.dataSchema);
    ok := true;
  }

  /** `get_pulsar_auth_token`: mask the bytes of the context's token into
      the static view and return the view as a C string. Without a token
      the view keeps what an earlier call left in it. */
  method GetAuthToken(ctx: PulsarContextState, view: AuthTokenView) returns (shown: Bytes)
    requires view.Valid()
    requires ctx.authToken.Some? ==> NulFree(ctx.authToken.value)
    modifies view.text
    ensures view.Valid()
    ensures shown == CString(view.text[..])
    ensures ctx.authToken.Some? ==>
              view.text[..AuthTokenMaskLen] == MaskedToken(Utf8(ctx.authToken.value)) &&
              shown == MaskedToken(Utf8(ctx.authToken.value))
    ensures ctx.authToken.None? ==> view.text[..] == old(view.text[..])
  {
    if ctx.authToken.Some? {
      var token := Utf8(ctx.authToken.value);
      var len := |token|;
      if len < 4 {
        FillWith(view.text, 0, Star, AuthTokenMaskLen);
        assert view.text[..AuthTokenMaskLen] == MaskedToken(token);
      } else if len < 8 {
        MaskMemory(view.text, AuthTokenMaskLen, token, len, 2);
      } else if len < 16 {
        MaskMemory(view.text, AuthTokenMaskLen, token, len, 4);
      } else {
        MaskMemory(view.text, AuthTokenMaskLen, token, len, 6);
      }
      assert token[..len] == token;
      assert view.text[..] == MaskedToken(token) + [0] + [];
      Utf8NulFree(ctx.authToken.value);
      CStringOfTerminated(MaskedToken(token), []);
    }
    shown := CString(view.text[..]);
  }
}
