# A model of the Pulsar output plugin for Fluent Bit

The repository holds three generations of an output plugin that forwards
Fluent Bit records to an Apache Pulsar topic. This project models their core
and proves its properties:

- **The newer C plugin** (`out_pulsar/pulsar_context.c`). Modelled here:
  - the synchronous and asynchronous senders and the completion callback,
    which counts discarded messages and releases what a send owns;
  - the masked view of the authentication token, written into a static
    17-byte buffer by `mask_memory`;
  - the output-schema and compression names and their case-insensitive
    parsing;
  - the threshold rules for numeric properties;
  - the choice of sender;
  - the steps of `flb_out_pulsar_create`.
- **The older C plugin** (`c/out_pulsar/pulsar_context.c`,
  `c/out_pulsar/pulsar.c`). Modelled here:
  - `append_log_text` and the configuration log that creation builds in a
    4096-byte buffer;
  - the initial counters and the required-field check;
  - the producer settings;
  - `flb_pulsar_send_msg` with its success, failure and total counters and
    its progress line;
  - the `cb_pulsar_flush` loop over a chunk.
- **The Go plugin** (`go/out_pulsar.go`). Modelled here:
  - `translateData` and `translateMap`, which turn a decoded record into a
    value `encoding/json` can write;
  - `maskText` and `getConfigKey` with its defaults;
  - the package-level counters of `sendMsg` and `FLBPluginFlushCtx`.

The Pulsar client, the msgpack decoder, `flb_msgpack_to_json` and
`json.Marshal` run outside the model. Their answers are inputs:

- A broker reply is a method parameter.
- A chunk is a sequence of frames that the decoder's successive calls would
  yield.
- The JSON encoder is a function parameter.
- The host's property store is a map from key to value.

Modules:

| module | file | models |
|---|---|---|
| `Common` | common.dfy | bytes and the UTF-8 encoding of text, `Option`, C strings, `strcasecmp`, `atol`, the first-match lookup of an if/else-if chain, the flush return codes |
| `PulsarApi` | pulsar_api.dfy | result codes, the producer enumerations, the message object |
| `ProducerOptions` | producer_options.dfy | the enumeration names, their parsing, the threshold rule, the producer settings record |
| `PulsarContext` | pulsar_context.dfy | out_pulsar/pulsar_context.c |
| `LegacyContext` | legacy_context.dfy | c/out_pulsar/pulsar_context.c |
| `LegacyFlush` | legacy_flush.dfy | c/out_pulsar/pulsar.c |
| `GoPlugin` | go_plugin.dfy | go/out_pulsar.go |

Configuration values are text (`string`). Where the C or the Go code
measures or copies a string, as `strlen`, `len`, `memcpy` and
`append_log_text` do, the model works on the string's UTF-8 bytes
(`Common.Utf8`). So a token is masked by bytes, and the configuration log
is bounded in bytes.

`flb_pulsar_send_callback` (out_pulsar/pulsar_context.c:11-26) changes no
counter on `pulsar_result_Ok`. Only failures are counted, as
`discarded_number`.

## Model

| member | source | states |
|---|---|---|
| Common.Lookup | out_pulsar/pulsar_context.c:284-299 | The chain of `strcasecmp` tests selects nothing exactly when no name in the table equals the string ignoring case. Otherwise it selects the value of the first entry whose name matches. |
| Common.LookupName | out_pulsar/pulsar_context.c:286-295 | When no two names are equal ignoring case, looking up an entry's name selects that entry. |
| Common.LookupIgnoresCase | out_pulsar/pulsar_context.c:286-295 | Two strings equal ignoring case select the same branch of the chain. |
| Common.EqualsIgnoreCaseEquivalence | out_pulsar/pulsar_context.c:286 | Equality under `strcasecmp` is reflexive, symmetric and transitive. |
| Common.AtolNotPositive | out_pulsar/pulsar_context.c:303 | `atol` of a value with a minus sign, or with no digit after the optional sign, is never positive. |
| Common.AtolOfDigits | out_pulsar/pulsar_context.c:261 | `atol` of a string of digits is the decimal number they spell. |
| ProducerOptions.GetProperty | out_pulsar/pulsar_context.c:260 | The property lookup returns a value exactly when the key is set, and then it returns the key's value. |
| ProducerOptions.ParsingByNames | out_pulsar/pulsar_context.c:284-299 | For a table that lists every enumeration value under its printed name: parsing fails exactly when no printed name matches the string ignoring case. A value it returns has a name that matches. When the names are distinct, parsing a printed name returns that value. |
| ProducerOptions.CompressionTableNames | out_pulsar/pulsar_context.c:110-126 | The parse chain lists each compression type once, under the name `get_producer_compression_type` prints. No two of those names are equal ignoring case. |
| ProducerOptions.CompressionParsing | out_pulsar/pulsar_context.c:284-299 | The compression value is rejected exactly when it matches none of NONE/LZ4/ZLIB/ZSTD/SNAPPY ignoring case. An accepted value gives a type whose name matches it. Parsing a printed name gives back the same type. |
| ProducerOptions.RoutingModeTableNames | out_pulsar/pulsar_context.c:136-146 | The routing-mode chain lists each mode once, under its printed name. The names are distinct ignoring case. |
| ProducerOptions.RoutingModeParsing | out_pulsar/pulsar_context.c:308-319 | Routing-mode parsing accepts exactly UseSingle/RoundRobin/Custom in any case. Parsing a printed name gives back the same mode. |
| ProducerOptions.HashingSchemeTableNames | out_pulsar/pulsar_context.c:147-159 | The hashing-scheme chain lists each scheme once, under its printed name. The names are distinct ignoring case. |
| ProducerOptions.HashingSchemeParsing | out_pulsar/pulsar_context.c:366-377 | Hashing-scheme parsing accepts exactly the three scheme names in any case. Parsing a printed name gives back the same scheme. |
| ProducerOptions.CryptoFailureActionTableNames | out_pulsar/pulsar_context.c:181-191 | The crypto-failure chain lists FAIL and SEND once each, under their printed names. |
| ProducerOptions.CryptoFailureActionParsing | out_pulsar/pulsar_context.c:380-389 | Crypto-failure parsing accepts exactly FAIL/SEND in any case. Parsing a printed name gives back the same action. |
| ProducerOptions.ParseBool | out_pulsar/pulsar_context.c:322-329 | The setter is called with true exactly for "true" ignoring case, and with false exactly for "false". Any other value, or no value, calls no setter. |
| ProducerOptions.SettingAbove | out_pulsar/pulsar_context.c:302-305 | A numeric setting is applied exactly when the property is present and its `atol` value exceeds the threshold. It is applied with that value. |
| ProducerOptions.NegativeSettingIgnored | out_pulsar/pulsar_context.c:330-333 | A negative or non-numeric value never reaches a setter. |
| PulsarContext.SchemaTableNames | out_pulsar/pulsar_context.c:62-72 | The schema chain lists each schema once, under the name `get_config_output_schema` prints. The names are distinct ignoring case. |
| PulsarContext.SchemaParsing | out_pulsar/pulsar_context.c:400-411 | An absent or unrecognised `dataSchema` leaves the schema as it was. A recognised one yields a schema whose name matches it ignoring case. Parsing the printed name of a schema gives back that schema. |
| PulsarContext.StrategyFor | out_pulsar/pulsar_context.c:249 | The asynchronous sender is chosen exactly when `is_async` is set, and the synchronous one otherwise. |
| PulsarContext.Masked | out_pulsar/pulsar_context.c:76-80 | The masked bytes number `size`. They are the first `n` bytes of the source, then stars, then the source's last `n` bytes. No byte is anything but a star or a byte of the source. |
| PulsarContext.KeptEnds | out_pulsar/pulsar_context.c:85-93 | A token shorter than 4 bytes keeps nothing. Lengths 4-7, 8-15 and at least 16 bytes keep 2, 4 and 6 bytes at each end. Both ends together never exceed the token or the 16-byte view. |
| PulsarContext.MaskedToken | out_pulsar/pulsar_context.c:81-97 | For a token of `strlen` bytes, the view is always 16 bytes: the token's first and last `KeptEnds(strlen)` bytes, with stars between them. It holds no zero byte when the token has none. |
| PulsarContext.MaskedTokenHidesMiddle | out_pulsar/pulsar_context.c:81-97 | Two tokens of the same length with the same kept ends get the same view, so the hidden middle never shows. |
| PulsarContext.MaskedTokenCountsBytes | out_pulsar/pulsar_context.c:85-91 | Ends are kept by bytes, not characters. "ééé" has 6 bytes, so its view is the 2 bytes of one "é", 12 stars, and the 2 bytes of another. |
| PulsarContext.CopyInto | out_pulsar/pulsar_context.c:77 | `memcpy` writes the source bytes into their span of the buffer and changes nothing else. |
| PulsarContext.FillWith | out_pulsar/pulsar_context.c:78 | `memset` writes the byte across its span of the buffer and changes nothing else. |
| PulsarContext.MaskMemory | out_pulsar/pulsar_context.c:76-80 | After `mask_memory`, the buffer's first `size` bytes are the source's first `n` bytes, `size - 2n` stars, and the source's last `n` bytes. The rest of the buffer is unchanged. |
| PulsarContext.AuthTokenView.constructor | out_pulsar/pulsar_context.c:82 | The static buffer starts as 17 zero bytes. |
| PulsarContext.GetAuthToken | out_pulsar/pulsar_context.c:81-97 | `len` is `strlen`, the byte count of the token's UTF-8 encoding. With a token, the buffer holds the 16-byte masked view of those bytes and then its terminator, and that view is returned. Without a token, the buffer keeps what an earlier call left in it. The returned C string is then that content. |
| PulsarContext.CallbackCtx.constructor | out_pulsar/pulsar_context.c:48-50 | The callback context points at the caller's context and at the new message. |
| PulsarContext.PulsarContextState.constructor | out_pulsar/pulsar_context.c:209-231 | A new context has no URL, token or topic, zero counters, the JSON schema, a show interval of 200, and no pending send. |
| PulsarContext.SendCallback | out_pulsar/pulsar_context.c:11-26 | A failed send adds exactly one to `discarded_number` and a successful one changes no counter. The callback leaves the pending set. The message id (only when non-NULL) is released, then the message, then the callback context, each exactly once. |
| PulsarContext.CallbackCompletesOnce | out_pulsar/pulsar_context.c:24-25 | A callback context already released is no longer pending, so it cannot complete again. |
| PulsarContext.SendSyncMsg | out_pulsar/pulsar_context.c:29-41 | The result is true exactly when the producer answers Ok. One new message carrying the data is sent and then released on both outcomes. |
| PulsarContext.SendAsyncMsg | out_pulsar/pulsar_context.c:44-54 | The result is always true. The data is sent, and exactly one new pending callback context is added, pointing at the caller's context and a new message that carries the data. |
| PulsarContext.SendMsg | out_pulsar/pulsar_context.c:29-54 | The data is sent through the sender chosen at creation. With the synchronous sender, the result is whether the producer answers Ok. One fresh message carrying the data is released, and nothing new is pending. With the asynchronous sender, the result is true and nothing is released. One fresh callback context becomes pending, pointing at this context and at a fresh message that carries the data. |
| PulsarContext.NewClientSettings | out_pulsar/pulsar_context.c:254-263 | Token authentication is set up exactly for a non-empty token. A memory limit, when applied, exceeds 8088608. |
| PulsarContext.CreatedSettingsRules | out_pulsar/pulsar_context.c:300-411 | Every numeric producer setting that creation applies is positive. The schema is JSON unless the `dataSchema` property names another schema ignoring case. |
| PulsarContext.Create | out_pulsar/pulsar_context.c:194-465 | Creation returns NULL exactly when the allocation, the configuration map, the URL/topic check, the client or the producer fails. Otherwise the context holds the loaded configuration, the chosen sender, the client and producer settings and the parsed schema, with zero counters. The token view holds the masked bytes of the token. |
| PulsarContext.LoadContext | out_pulsar/pulsar_context.c:209-246 | Loading fails exactly when the allocation or the map fails, or the broker URL or the topic is missing. Otherwise the context holds the mapped fields over the initial values. |
| PulsarContext.ConnectProducer | out_pulsar/pulsar_context.c:248-411 | The step succeeds exactly when the client is created and the producer creation returns Ok. It then sets the sender, the client and producer settings and the schema, and leaves everything else unchanged. |
| LegacyContext.LogTextConcat | c/out_pulsar/pulsar_context.c:79-80 | The log of two runs of appends is the first run's log followed by the second's. |
| LegacyContext.CopyCString | c/out_pulsar/pulsar_context.c:13-18 | `while (*src) *config++ = *src++` stops at the terminator of a NUL-free string. It copies exactly the string's bytes to their span and changes nothing else. |
| LegacyContext.AppendLogText | c/out_pulsar/pulsar_context.c:10-22 | For two C strings, the returned position is the byte length of `key` plus that of `value` plus 1, past the argument. The bytes between are those of `key`, then those of `value`, then a newline. Nothing before the argument or after the result changes, and no terminator is written. |
| LegacyContext.AppendLine | c/out_pulsar/pulsar_context.c:79-80 | Suppose the buffer holds the encoded log of some lines, with no zero in it. One `plog = append_log_text(...)` step then leaves it holding the encoded log of those lines plus the new one. There is still no zero in the log, and zeros follow it. |
| LegacyContext.PresentLine | c/out_pulsar/pulsar_context.c:113-117 | A property that is present is logged with its own text. An absent one is not logged. |
| LegacyContext.AboveLine | c/out_pulsar/pulsar_context.c:94-98 | A threshold property is logged exactly when it is present and its `atol` value exceeds the threshold, and then with its own text. |
| LegacyContext.StageLine | c/out_pulsar/pulsar_context.c:79-196 | Each of the fifteen steps of creation appends at most one line. |
| LegacyContext.ClientLine | c/out_pulsar/pulsar_context.c:79-98 | Each client step (introduction, URL, token, memory limit) appends at most one line. |
| LegacyContext.NamingLine | c/out_pulsar/pulsar_context.c:112-145 | Each step for the producer name, topic, compression and send timeout appends at most one line. |
| LegacyContext.BatchingLine | c/out_pulsar/pulsar_context.c:147-171 | Each batching step appends at most one line. |
| LegacyContext.QueueingLine | c/out_pulsar/pulsar_context.c:173-196 | Each queueing step appends at most one line. |
| LegacyContext.LinesPrefix | c/out_pulsar/pulsar_context.c:79-196 | The log only grows. The lines of an earlier step begin the lines of a later one, and their bytes are no more. |
| LegacyContext.TopicLogged | c/out_pulsar/pulsar_context.c:119 | The corrected log always carries the topic under the topic label, on the line after the optional producer name. |
| LegacyContext.CompressTypeAlwaysLogged | c/out_pulsar/pulsar_context.c:121-138 | A compression property is logged whether or not it is supported. The producer receives a compression type exactly when the value names one ignoring case. |
| LegacyContext.MemoryLimitLogged | c/out_pulsar/pulsar_context.c:94-98 | The memory limit is logged exactly when it is set and its `atol` value exceeds 1024. |
| LegacyContext.NumericLoggedIffApplied | c/out_pulsar/pulsar_context.c:140-196 | Each numeric producer property is logged exactly when it is applied. For the send timeout, that is exactly when it is set with a positive value. |
| LegacyContext.TopicLineMislabelled | c/out_pulsar/pulsar_context.c:119 | As written, with producer name "p" and topic "t", the topic label is followed by "p" rather than "t". Without a producer name the line reads a NULL value. |
| LegacyContext.LegacyContextState.constructor | c/out_pulsar/pulsar_context.c:39-59 | A new context has zero total, success and failed counters, a show interval of 200, no URL, token or topic, and no producer setting. |
| LegacyContext.Create | c/out_pulsar/pulsar_context.c:24-208 | Creation returns NULL exactly when the allocation, the configuration map, the URL/topic check, the client or the producer fails. Otherwise the context holds the loaded fields and the producer settings. The C string `flb_plg_info` receives is the UTF-8 bytes of every logged line in program order, and it fits in `config_log`. Line 119 is taken as corrected, so the topic line shows the topic. The line as written is the row under "## Findings". |
| LegacyContext.LoadContext | c/out_pulsar/pulsar_context.c:39-74 | Loading fails exactly when the allocation or the map fails, or the URL or the topic is missing. Otherwise the counters are zero and the show interval is the mapped one or 200. |
| LegacyContext.LogStage | c/out_pulsar/pulsar_context.c:79-196 | One step of creation extends the buffer from the log of the previous steps to the log of this one. |
| LegacyContext.LogClient | c/out_pulsar/pulsar_context.c:79-98 | Starting from the zeroed buffer, the client part leaves the log of its four steps. |
| LegacyContext.ConfigureProducer | c/out_pulsar/pulsar_context.c:110-196 | The producer part sets the producer settings and leaves the buffer holding the whole configuration log. |
| LegacyContext.LogProducerNaming | c/out_pulsar/pulsar_context.c:112-145 | The naming steps extend the log of steps 1-4 to the log of steps 1-8. |
| LegacyContext.LogBatching | c/out_pulsar/pulsar_context.c:147-171 | The batching steps extend the log to steps 1-12. |
| LegacyContext.LogQueueing | c/out_pulsar/pulsar_context.c:173-196 | The queueing steps complete the log. |
| LegacyFlush.Count | c/out_pulsar/pulsar.c:20-43 | An empty conversion changes no counter. Otherwise the total grows by one, and exactly one of success (on Ok) or failure (otherwise) grows by one. |
| LegacyFlush.CountKeepsBalance | c/out_pulsar/pulsar.c:36-43 | One send keeps `success + failed == total`. |
| LegacyFlush.ProgressLine | c/out_pulsar/pulsar.c:43-47 | A progress line is written exactly when a send was attempted and the incremented total is a multiple of the show interval. It shows the counters and the last message. |
| LegacyFlush.SendMsg | c/out_pulsar/pulsar.c:14-51 | The result is true exactly when the text is non-empty and the producer answers Ok. The counters move as `Count` says, the text is sent only when non-empty, and the progress line is the one `ProgressLine` gives for the new counters. |
| LegacyFlush.Attempts | c/out_pulsar/pulsar.c:94-103 | There are no more send attempts than frames, and each attempt carries a non-empty text. |
| LegacyFlush.Flush | c/out_pulsar/pulsar.c:80-107 | The flush always returns `FLB_OK`. The counters end where the batch of attempts takes them. The texts are sent in chunk order up to the first unpack failure, and the progress lines are exactly those of the batch. |
| LegacyFlush.BatchCounts | c/out_pulsar/pulsar.c:94-103 | A flush adds one to the total per attempt. It adds to success the attempts answered Ok, and to failed the others. |
| LegacyFlush.BatchKeepsBalance | c/out_pulsar/pulsar.c:94-103 | A flush keeps `success + failed == total`. |
| LegacyFlush.ReportsCount | c/out_pulsar/pulsar.c:43-47 | A flush writes one progress line for each multiple of the show interval that the total passes. |
| LegacyFlush.ReportsAtMultiples | c/out_pulsar/pulsar.c:43-47 | Every progress line shows a multiple of the show interval reached during the flush. With balanced counters it shows balanced counters. |
| LegacyFlush.ReportsIncrease | c/out_pulsar/pulsar.c:43-47 | The progress lines of a flush come in strictly increasing order of total. |
| LegacyFlush.BatchTotalGrows | c/out_pulsar/pulsar.c:94-103 | A flush never lowers the total. |
| LegacyFlush.TailIgnored | c/out_pulsar/pulsar.c:94 | Frames after the first unpack failure are neither counted, reported nor sent. |
| LegacyFlush.AttemptsInOrder | c/out_pulsar/pulsar.c:94-103 | The attempts of a run of decoded records followed by more frames are the run's attempts followed by the rest, so records are sent in chunk order. |
| GoPlugin.TranslateData | go/out_pulsar.go:154-177 | nil stays nil, and a byte slice becomes the string of the same bytes. Other scalars and already-converted values are unchanged. A map becomes its converted map. Slices keep their length and convert element `i` to position `i`. Each of these fails exactly when one of its parts fails. |
| GoPlugin.TranslateMap | go/out_pulsar.go:179-186 | Conversion succeeds exactly when every key is a string and every value converts. The converted map has the same keys, as strings, each bound to the conversion of its value. |
| GoPlugin.Translate | go/out_pulsar.go:154-177 | The loops of `translateData` compute `TranslateData`. |
| GoPlugin.TranslateMapping | go/out_pulsar.go:179-186 | The loop of `translateMap` computes `TranslateMap`, in whatever order it visits the keys. |
| GoPlugin.MapPanics | go/out_pulsar.go:182 | One non-string key or one value that cannot be converted makes the conversion of the map fail. |
| GoPlugin.MapConverted | go/out_pulsar.go:179-186 | A string-keyed map holding exactly the converted entries is the converted map. |
| GoPlugin.TranslatedIsJsonReady | go/out_pulsar.go:122-124 | The conversion of a decoded record holds no byte slice and no interface-keyed map anywhere. |
| GoPlugin.TranslatedMapIsJsonReady | go/out_pulsar.go:179-186 | The conversion of a decoded map holds no byte slice and no interface-keyed map anywhere. |
| GoPlugin.TranslateIdempotent | go/out_pulsar.go:154-177 | Converting a converted value changes nothing. |
| GoPlugin.NonStringKeyPanics | go/out_pulsar.go:182 | A non-string map key anywhere the conversion reaches makes it panic. |
| GoPlugin.MaskText | go/out_pulsar.go:188-194 | `len` and `text[:n]` count bytes. When `n` is less than the byte length, the result is the first `n` bytes followed by "****". Otherwise it is the text unchanged. |
| GoPlugin.MaskTextHidesRest | go/out_pulsar.go:99 | Two tokens longer than `n` bytes with the same first `n` bytes are logged alike. |
| GoPlugin.MaskTextCountsBytes | go/out_pulsar.go:188-194 | The cut falls after `n` bytes, not `n` characters. "ééééé" has 10 bytes, so with `n` = 8 it shows as "éééé****". |
| GoPlugin.GetConfigKey | go/out_pulsar.go:145-152 | The result is the configured value when it is non-empty, and otherwise `defaultMap[key]`. |
| GoPlugin.ConfigDefaults | go/out_pulsar.go:11-15 | Without configuration, the broker is pulsar://localhost:6650, the topic is persistent://moego/basic/test and the token is empty. An empty value counts as absent. A key the defaults lack reads as "" exactly when it is not configured. |
| GoPlugin.AfterSend | go/out_pulsar.go:53-74 | The total is unchanged. Sent grows by one exactly on a successful send. Success plus failed grows by one exactly when sent reaches a multiple of 200, with success only after a good flush and failed only after a bad one. |
| GoPlugin.ProgressAfter | go/out_pulsar.go:62-72 | The progress line is written exactly after a successful send whose sent count is a multiple of 200. It shows all four counters and the payload. |
| GoPlugin.GoPluginState.constructor | go/out_pulsar.go:50 | All four counters start at zero. |
| GoPlugin.SendMessage | go/out_pulsar.go:53-74 | `sendMsg` moves the counters as `AfterSend` says, records the payload only when the producer accepts it, and returns the progress line `ProgressAfter` gives. |
| GoPlugin.RecordStep | go/out_pulsar.go:119-132 | Each decoded record adds one to the total before anything else. A conversion panic stops there. A serialisation error adds one to failed and skips the send. Otherwise the send moves the counters. |
| GoPlugin.HandleRecord | go/out_pulsar.go:119-132 | The loop body panics exactly when the conversion does. It moves the counters as `RecordStep` says and publishes the payload only when it serialises and the producer accepts it. |
| GoPlugin.FlushCtx | go/out_pulsar.go:110-137 | The flush returns `FLB_OK` unless a record's conversion panics. The counters and published payloads are those of the records up to the first non-zero decoder return, or up to the panic. |
| GoPlugin.RecordStepConsistent | go/out_pulsar.go:119-132 | One record keeps the counters consistent: sent never exceeds total, and success, failed and sent together never exceed total plus the number of flushes. |
| GoPlugin.GoBatchConsistent | go/out_pulsar.go:110-137 | A whole flush keeps the counters consistent. |
| GoPlugin.DecodedCount | go/out_pulsar.go:113-117 | The decoder yields no more records than frames. |
| GoPlugin.GoBatchCounts | go/out_pulsar.go:110-137 | Without a panic, the total grows by one per decoded record. In any case, the sent counter grows by the number of payloads the producer accepted. |
| GoPlugin.GoTailIgnored | go/out_pulsar.go:113-117 | Frames after the first non-zero return of the decoder are neither counted nor sent, and cannot cause a panic. |

## Left out

- Threads: the completion callback runs on the client's thread. Here it is a sequential event; interleavings and atomicity are not modelled.
- Integer widths: `uint32_t`/`uint64_t` counters, Go `int` counters and the `int` returned by `flb_msgpack_to_json` are unbounded integers. Wrap-around is not modelled.
- Common.Atol: overflow of `long` is not modelled.
- Log formatting: none of `flb_plg_info`, `flb_plg_warn`, `flb_plg_error` or `log.Printf` is modelled. The exception is the progress lines, modelled as values.
- The print-out of the newer plugin's configuration is not modelled, nor are its forwarding getters for memory limit, producer name, send timeout, sequence id and so on. Only the name switches and the masked token are modelled.
- Client and producer creation, the setter calls, `flb_out_pulsar_destroy`, `initPulsar`, `exitPulsar`, `FLBPluginInit` and `FLBPluginExit` are calls into the Pulsar client. Their outcomes are inputs. The requested settings are records, not library state.
- msgpack unpacking, `flb_time_pop_from_msgpack`, `flb_msgpack_to_json`, `output.GetRecord` and `json.Marshal` are external. Their results are frames or a function parameter. An empty text stands for a conversion length below 1.
- Floats, time stamps and extension values in Go records are one opaque scalar (`Other`), passed through unchanged as the code does.
- The host's property store is an exact-key map. The host's own case-insensitive key matching is not modelled.
- In c/out_pulsar/pulsar_context.c, lines 89, 96 and 100 use names that are not declared (`ctx->conf`, `authentication`, `pulsar_url`), so that code does not compile. The older client's authentication and memory-limit setters and its client-creation arguments get no meaning here. Only the lines they log are modelled.
- LegacyContext.Create: requires that the UTF-8 bytes of the configuration log and its terminator fit in the 4096-byte `config_log`. The C code does not check this, and a longer log would overflow the buffer.
- LegacyContext.Create: `config_log` is passed to `flb_plg_info` as its format string. A `%` in a logged value is interpreted by the logger, and that is not modelled. The model states the C string handed over.
- Text: configuration values are Unicode strings. The C and Go code see them as UTF-8 bytes. A configured value that is not valid UTF-8 cannot be expressed. The host's values are C strings, so they are taken to hold no NUL (`ProducerOptions.CValues`, `LegacyContext.ConfigNulFree`).
- PulsarContext.SendAsyncMsg: the results of `pulsar_message_create` and `flb_calloc` (out_pulsar/pulsar_context.c:45-50) are not checked for failure, so a failed allocation is then dereferenced. The model treats both allocations as succeeding, and so does PulsarContext.SendSyncMsg for its message (line 30).
- LegacyFlush.SendMsg: requires a positive show interval. With `ShowInterval` 0 the C modulo divides by zero, and that crash is not modelled.
- LegacyFlush.Flush: models `cb_pulsar_flush`. The plugin registers the debug callback `cb_stdout_flush` instead (c/out_pulsar/pulsar.c:192-193). That debug path, the C config-map tables and plugin registration are not modelled.
- PulsarContext.Create: the NULL initial value of `send_msg_func` is represented as the synchronous sender. No send can happen before creation sets the real one.
- GoPlugin.FlushCtx: the progress lines of the sends inside a flush are not collected. `SendMessage` returns each one on its own.
- The header files contribute only the field set and the schema codes.

## Findings

| source | as written | input that shows it | evidently intended | confidence | as-written member | corrected member |
|---|---|---|---|---|---|---|
| c/out_pulsar/pulsar_context.c:119 | The topic log line passes `pvalue`, which still holds the `ProducerName` property, instead of `ctx->topic`. | ProducerName "p", Topic "t": the log reads "Topic: p". Without a ProducerName, `append_log_text` dereferences NULL. | The topic line shows `ctx->topic`. | not executed | LegacyContext.TopicLineMislabelled | LegacyContext.TopicLogged |
