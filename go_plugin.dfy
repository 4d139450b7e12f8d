/** The Go generation of the plugin: reading its three configuration keys
    with defaults, masking the token it logs, turning a decoded record into
    a value `encoding/json` can serialise, and the package-level counters
    kept by the send and flush functions. The record decoder, the JSON
    encoder and the Pulsar producer are outside the model: their answers are
    inputs. */
module GoPlugin {
  import opened Common

  /** The hashable dynamic types a decoded map key can have. */
  datatype Key = KeyStr(s: Bytes) | KeyInt(i: int) | KeyBool(b: bool)

  /** A `map[interface{}]interface{}`, as the decoder builds them. */
  datatype GoMap = GoMap(entries: map<Key, Value>)

  /** A `map[string]interface{}`, as the conversion builds them. */
  datatype StringMap = StringMap(fields: map<Bytes, Value>)

  /** An `interface{}` value, by its dynamic type. `Other` stands for the
      scalar types the conversion passes through unchanged (floats, time
      stamps, extension values). `StrMap` and `StrMapSlice` are the
      `map[string]interface{}` and `[]map[string]interface{}` the conversion
      produces. A Go string is its bytes. */
  datatype Value =
    | Nil
    | Str(s: Bytes)
    | ByteSlice(b: Bytes)
    | Int(i: int)
    | Bool(v: bool)
    | Other(tag: nat)
    | Map(m: GoMap)
    | MapSlice(ms: seq<GoMap>)
    | Slice(a: seq<Value>)
    | StrMap(sm: StringMap)
    | StrMapSlice(sms: seq<StringMap>)

  /** `translateData` (lines 154-177); `None` is the panic of the type
      assertion on a map key that is not a string, wherever it sits. */
  function TranslateData(v: Value): (r: Option<Value>)
    ensures v.Nil? ==> r == Some(Nil)
    ensures v.ByteSlice? ==> r == Some(Str(v.b))
    ensures (v.Str? || v.Int? || v.Bool? || v.Other? || v.StrMap? || v.StrMapSlice?) ==> r == Some(v)
    ensures v.Map? ==> (r.Some? <==> TranslateMap(v.m).Some?)
    ensures v.Map? && r.Some? ==> r.value == StrMap(TranslateMap(v.m).value)
    ensures v.MapSlice? ==> (r.Some? <==> forall i :: 0 <= i < |v.ms| ==> TranslateMap(v.ms[i]).Some?)
    ensures v.MapSlice? && r.Some? ==> (r.value.StrMapSlice? && |r.value.sms| == |v.ms| &&
      forall i :: 0 <= i < |v.ms| ==> r.value.sms[i] == TranslateMap(v.ms[i]).value)
    ensures v.Slice? ==> (r.Some? <==> forall i :: 0 <= i < |v.a| ==> TranslateData(v.a[i]).Some?)
    ensures v.Slice? && r.Some? ==> (r.value.Slice? && |r.value.a| == |v.a| &&
      forall i :: 0 <= i < |v.a| ==> r.value.a[i] == TranslateData(v.a[i]).value)
    decreases v, 1
  {
    match v
    case Nil => Some(Nil)
    case ByteSlice(b) => Some(Str(b))
    case Map(m) =>
      var r := TranslateMap(m);
      if r.Some? then Some(StrMap(r.value)) else None
    case MapSlice(ms) =>
      if forall i | 0 <= i < |ms| :: TranslateMap(ms[i]).Some? then
        Some(StrMapSlice(seq(|ms|, i requires 0 <= i < |ms| => TranslateMap(ms[i]).value)))
      else None
    case Slice(a) =>
      if forall i | 0 <= i < |a| :: TranslateData(a[i]).Some? then
        Some(Slice(seq(|a|, i requires 0 <= i < |a| => TranslateData(a[i]).value)))
      else None
    case _ => Some(v)
  }

  /** `translateMap` (lines 179-186): the same keys, as strings, each bound
      to its value's translation; `None` (a panic) as soon as a key is not a
      string or a value cannot be translated. */
  function TranslateMap(g: GoMap): (r: Option<StringMap>)
    ensures r.Some? <==> forall k :: k in g.entries ==> k.KeyStr? && TranslateData(g.entries[k]).Some?
    ensures r.Some? ==> forall s :: s in r.value.fields <==> KeyStr(s) in g.entries
    ensures r.Some? ==> forall s :: s in r.value.fields ==> r.value.fields[s] == TranslateData(g.entries[KeyStr(s)]).value
    decreases g, 0
  {
    var m := g.entries;
    if forall k | k in m :: k.KeyStr? && TranslateData(m[k]).Some? then
      Some(StringMap(map k | k in m :: k.s := TranslateData(m[k]).value))
    else None
  }

  /** `translateData` as the loops of lines 154-177 run it: the slices are
      converted element by element, in order, and a panic in any element
      ends the conversion. */
  method Translate(v: Value) returns (r: Option<Value>)
    ensures r == TranslateData(v)
    decreases v, 1
  {
    match v
    case Nil =>
      r := Some(Nil);
    case ByteSlice(b) =>
      r := Some(Str(b));
    case Map(m) =>
      var sm := TranslateMapping(m);
      r := if sm.Some? then Some(StrMap(sm.value)) else None;
    case MapSlice(ms) =>
      var arr: seq<StringMap> := [];
      var i := 0;
      while i < |ms|
        invariant 0 <= i <= |ms| && |arr| == i
        invariant forall j :: 0 <= j < i ==> TranslateMap(ms[j]).Some? && arr[j] == TranslateMap(ms[j]).value
      {
        var t := TranslateMapping(ms[i]);
        if t.None? {
          return None;
        }
        arr := arr + [t.value];
        i := i + 1;
      }
      assert arr == TranslateData(v).value.sms;
      r := Some(StrMapSlice(arr));
    case Slice(a) =>
      var arr: seq<Value> := [];
      var i := 0;
      while i < |a|
        invariant 0 <= i <= |a| && |arr| == i
        invariant forall j :: 0 <= j < i ==> TranslateData(a[j]).Some? && arr[j] == TranslateData(a[j]).value
      {
        var t := Translate(a[i]);
        if t.None? {
          return None;
        }
        arr := arr + [t.value];
        i := i + 1;
      }
      assert arr == TranslateData(v).value.a;
      r := Some(Slice(arr));
    case _ =>
      r := Some(v);
  }

  /** `translateMap` as the loop of lines 179-186 runs it: the keys are
      taken in an order the model does not fix, as Go's map iteration does
      not; the first non-string key, or a value that cannot be converted,
      ends the conversion. */
  method TranslateMapping(g: GoMap) returns (r: Option<StringMap>)
    ensures r == TranslateMap(g)
    decreases g, 0
  {
    var result: map<Bytes, Value> := map[];
    var todo := g.entries.Keys;
    while todo != {}
      invariant todo <= g.entries.Keys
      invariant forall k :: k in g.entries && k !in todo ==> k.KeyStr? && TranslateData(g.entries[k]).Some?
      invariant forall s :: s in result <==> KeyStr(s) in g.entries && KeyStr(s) !in todo
      invariant forall s :: s in result ==> result[s] == TranslateData(g.entries[KeyStr(s)]).value
      decreases todo
    {
      var k :| k in todo;
      if !k.KeyStr? {
        MapPanics(g, k);
        return None;
      }
      var t := Translate(g.entries[k]);
      if t.None? {
        MapPanics(g, k);
        return None;
      }
      result := result[k.s := t.value];
      todo := todo - {k};
    }
    MapConverted(g, result);
    r := Some(StringMap(result));
  }

  /** One key that is not a string, or one value that cannot be converted,
      makes the whole map fail. */
  lemma MapPanics(g: GoMap, k: Key)
    requires k in g.entries && (!k.KeyStr? || TranslateData(g.entries[k]).None?)
    ensures TranslateMap(g).None?
  {
  }

  /** A string-keyed map that holds exactly the converted entries of `g` is
      what `g` converts to. */
  lemma MapConverted(g: GoMap, result: map<Bytes, Value>)
    requires forall k :: k in g.entries ==> k.KeyStr? && TranslateData(g.entries[k]).Some?
    requires forall s :: s in result <==> KeyStr(s) in g.entries
    requires forall s :: s in result ==> result[s] == TranslateData(g.entries[KeyStr(s)]).value
    ensures TranslateMap(g) == Some(StringMap(result))
  {
    var t := TranslateMap(g);
    assert t.Some?;
    var fields := t.value.fields;
    forall s | s in fields
      ensures s in result && fields[s] == result[s]
    {
    }
    forall s | s in result
      ensures s in fields
    {
    }
    SameEntries(fields, result);
  }

  /** Two maps with the same keys and the same value at each key are equal. */
  lemma SameEntries<K, V>(a: map<K, V>, b: map<K, V>)
    requires forall k :: k in a ==> k in b && a[k] == b[k]
    requires forall k :: k in b ==> k in a
    ensures a == b
  {
  }

  /** A value as the decoder hands it over: no string-keyed map anywhere. */
  predicate Decodable(v: Value)
    decreases v, 1
  {
    match v
    case StrMap(_) => false
    case StrMapSlice(_) => false
    case Map(m) => DecodableMap(m)
    case MapSlice(ms) => forall i :: 0 <= i < |ms| ==> DecodableMap(ms[i])
    case Slice(a) => forall i :: 0 <= i < |a| ==> Decodable(a[i])
    case _ => true
  }

  predicate DecodableMap(g: GoMap)
    decreases g, 0
  {
    forall k :: k in g.entries ==> Decodable(g.entries[k])
  }

  /** A value `encoding/json` writes as plain JSON text: no byte slice (which
      it would write in base64) and no interface-keyed map (which it rejects)
      anywhere. */
  predicate JsonReady(v: Value)
    decreases v, 1
  {
    match v
    case ByteSlice(_) => false
    case Map(_) => false
    case MapSlice(_) => false
    case StrMap(sm) => JsonReadyMap(sm)
    case StrMapSlice(sms) => forall i :: 0 <= i < |sms| ==> JsonReadyMap(sms[i])
    case Slice(a) => forall i :: 0 <= i < |a| ==> JsonReady(a[i])
    case _ => true
  }

  predicate JsonReadyMap(sm: StringMap)
    decreases sm, 0
  {
    forall s :: s in sm.fields ==> JsonReady(sm.fields[s])
  }

  /** What the conversion makes of a decoded record is ready for the JSON
      encoder. */
  lemma {:induction false} TranslatedIsJsonReady(v: Value)
    requires Decodable(v) && TranslateData(v).Some?
    ensures JsonReady(TranslateData(v).value)
    decreases v, 1
  {
    match v
    case Map(m) =>
      TranslatedMapIsJsonReady(m);
    case MapSlice(ms) =>
      var r := TranslateData(v).value;
      forall i | 0 <= i < |r.sms|
        ensures JsonReadyMap(r.sms[i])
      {
        TranslatedMapIsJsonReady(ms[i]);
      }
    case Slice(a) =>
      var r := TranslateData(v).value;
      forall i | 0 <= i < |r.a|
        ensures JsonReady(r.a[i])
      {
        TranslatedIsJsonReady(a[i]);
      }
    case _ =>
  }

  lemma {:induction false} TranslatedMapIsJsonReady(g: GoMap)
    requires DecodableMap(g) && TranslateMap(g).Some?
    ensures JsonReadyMap(TranslateMap(g).value)
    decreases g, 0
  {
    var r := TranslateMap(g).value;
    forall s | s in r.fields
      ensures JsonReady(r.fields[s])
    {
      TranslatedIsJsonReady(g.entries[KeyStr(s)]);
    }
  }

  /** Converting twice is converting once. */
  lemma {:induction false} TranslateIdempotent(v: Value)
    requires TranslateData(v).Some?
    ensures TranslateData(TranslateData(v).value) == TranslateData(v)
    decreases v
  {
    match v
    case Slice(a) =>
      var r := TranslateData(v).value;
      forall i | 0 <= i < |a|
        ensures TranslateData(r.a[i]) == Some(r.a[i])
      {
        TranslateIdempotent(a[i]);
      }
      assert Slice(seq(|r.a|, i requires 0 <= i < |r.a| => TranslateData(r.a[i]).value)) == r;
    case _ =>
  }

  /** The conversion visits the interface-keyed map `g` inside `v`: `v` is
      `g`, or holds it in a map slice, or one of the values it converts
      does. */
  predicate Visits(v: Value, g: GoMap)
    decreases v
  {
    match v
    case Map(m) => m == g || exists k :: k in m.entries && Visits(m.entries[k], g)
    case MapSlice(ms) => exists i :: 0 <= i < |ms| && (ms[i] == g || exists k :: k in ms[i].entries && Visits(ms[i].entries[k], g))
    case Slice(a) => exists i :: 0 <= i < |a| && Visits(a[i], g)
    case _ => false
  }

  /** A map key that is not a string makes the conversion panic, however
      deep in the record the map sits. */
  lemma {:induction false} NonStringKeyPanics(v: Value, g: GoMap, k: Key)
    requires k in g.entries && !k.KeyStr?
    requires Visits(v, g)
    ensures TranslateData(v).None?
    decreases v
  {
    match v
    case Map(m) =>
      if m != g {
        var k' :| k' in m.entries && Visits(m.entries[k'], g);
        NonStringKeyPanics(m.entries[k'], g, k);
      }
    case MapSlice(ms) =>
      var i :| 0 <= i < |ms| && (ms[i] == g || exists k' :: k' in ms[i].entries && Visits(ms[i].entries[k'], g));
      if ms[i] != g {
        var k' :| k' in ms[i].entries && Visits(ms[i].entries[k'], g);
        NonStringKeyPanics(ms[i].entries[k'], g, k);
      }
    case Slice(a) =>
      var i :| 0 <= i < |a| && Visits(a[i], g);
      NonStringKeyPanics(a[i], g, k);
  }

  /** The four stars `maskText` appends. */
  const MaskStars: Bytes := [42, 42, 42, 42]

  /** `maskText` (lines 188-194). A Go string is its bytes, and `len(text)`
      and `text[:n]` count bytes: the first `n` bytes and four stars, or the
      text itself when it is no longer than `n` bytes. */
  function MaskText(text: Bytes, n: nat): (r: Bytes)
    ensures |r| == if n < |text| then n + 4 else |text|
    ensures n < |text| ==> r[..n] == text[..n] && r[n..] == MaskStars
    ensures n >= |text| ==> r == text
  {
    if n < |text| then text[..n] + MaskStars else text
  }

  /** Two texts longer than `n` bytes that share their first `n` bytes are
      logged alike: nothing after the first `n` bytes shows. */
  lemma MaskTextHidesRest(a: Bytes, b: Bytes, n: nat)
    requires n < |a| && n < |b| && a[..n] == b[..n]
    ensures MaskText(a, n) == MaskText(b, n)
  {
  }

  /** The cut is made in bytes: "ééééé" is ten bytes, so with `n` = 8 its
      first four characters show, followed by the stars. */
  lemma MaskTextCountsBytes()
    ensures MaskText(Utf8("\U{E9}\U{E9}\U{E9}\U{E9}\U{E9}"), 8) == Utf8("\U{E9}\U{E9}\U{E9}\U{E9}") + MaskStars
  {
    var e := Utf8("\U{E9}");
    assert e == [0xC3, 0xA9];
    Utf8Concat("\U{E9}", "\U{E9}\U{E9}\U{E9}");
    Utf8Concat("\U{E9}", "\U{E9}\U{E9}");
    Utf8Concat("\U{E9}", "\U{E9}");
    Utf8Concat("\U{E9}\U{E9}\U{E9}\U{E9}", "\U{E9}");
    assert Utf8("\U{E9}\U{E9}\U{E9}\U{E9}") == e + e + e + e;
  }

  /** `defaultMap` (lines 11-15). */
  const DefaultMap: map<string, string> := map[
    "PulsarBrokerUrl" := "pulsar://localhost:6650",
    "Topic" := "persistent://moego/basic/test",
    "Token" := ""]

  /** `defaultMap[key]`: the zero value, "", for a key it does not hold. */
  function DefaultFor(key: string): string {
    if key in DefaultMap then DefaultMap[key] else ""
  }

  /** The plugin's configuration, key by key. */
  type PluginConfig = map<string, string>

  /** `output.FLBPluginConfigKey`: "" for a key that is not configured. */
  function ConfigKey(cfg: PluginConfig, key: string): string {
    if key in cfg then cfg[key] else ""
  }

  /** `getConfigKey` (lines 145-152): the configured value unless it is
      empty, the default otherwise. */
  function GetConfigKey(cfg: PluginConfig, key: string): (r: string)
    ensures ConfigKey(cfg, key) != "" ==> r == cfg[key]
    ensures ConfigKey(cfg, key) == "" ==> r == DefaultFor(key)
  {
    var s := ConfigKey(cfg, key);
    if |s| == 0 then DefaultFor(key) else s
  }

  /** Without configuration the plugin talks to a local broker on the
      default topic without a token; an empty value counts as absent; and a
      key the defaults do not know reads as "". */
  lemma ConfigDefaults(cfg: PluginConfig, key: string)
    ensures GetConfigKey(map[], "PulsarBrokerUrl") == "pulsar://localhost:6650"
    ensures GetConfigKey(map[], "Topic") == "persistent://moego/basic/test"
    ensures GetConfigKey(map[], "Token") == ""
    ensures GetConfigKey(cfg[key := ""], key) == GetConfigKey(cfg - {key}, key)
    ensures key !in DefaultMap ==> (GetConfigKey(cfg, key) == "" <==> ConfigKey(cfg, key) == "")
  {
  }

  /** The package-level counters. */
  datatype GoCounts = GoCounts(total: nat, sent: nat, success: nat, failed: nat)

  /** The producer is flushed after every `FlushEvery` sent messages. */
  const FlushEvery: nat := 200

  /** The counters after `sendMsg`: `sendOk` is whether the producer accepted
      the message, `flushOk` whether the flush that may follow succeeded. */
  function AfterSend(c: GoCounts, sendOk: bool, flushOk: bool): (r: GoCounts)
    ensures r.total == c.total
    ensures r.sent == c.sent + (if sendOk then 1 else 0)
    ensures r.success + r.failed == c.success + c.failed + (if sendOk && r.sent % FlushEvery == 0 then 1 else 0)
    ensures r.success >= c.success && r.failed >= c.failed
    ensures r.success > c.success ==> flushOk
    ensures r.failed > c.failed ==> !flushOk
  {
    if !sendOk then c
    else
      var c1 := c.(sent := c.sent + 1);
      if c1.sent % FlushEvery != 0 then c1
      else if flushOk then c1.(success := c1.success + 1)
      else c1.(failed := c1.failed + 1)
  }

  /** The progress line `sendMsg` logs after a flush. */
  datatype GoProgress = GoProgress(total: nat, sent: nat, success: nat, failed: nat, last: Bytes)

  /** The progress line for a send that left the counters at `c`. */
  function ProgressAfter(c: GoCounts, sendOk: bool, msg: Bytes): (p: Option<GoProgress>)
    ensures p.Some? <==> sendOk && c.sent % FlushEvery == 0
    ensures p.Some? ==> p.value == GoProgress(c.total, c.sent, c.success, c.failed, msg)
  {
    if sendOk && c.sent % FlushEvery == 0 then Some(GoProgress(c.total, c.sent, c.success, c.failed, msg)) else None
  }

  /** `msgTotalNumber`, `msgSentNumber`, `msgSuccessNumber`,
      `msgFailedNumber`, and the payloads the producer has accepted. */
  class GoPluginState {
    var msgTotalNumber: nat
    var msgSentNumber: nat
    var msgSuccessNumber: nat
    var msgFailedNumber: nat
    ghost var published: seq<Bytes>

    function Counts(): GoCounts
      reads this
    {
      GoCounts(msgTotalNumber, msgSentNumber, msgSuccessNumber, msgFailedNumber)
    }

    /** The initialisation on line 50. */
    constructor ()
      ensures Counts() == GoCounts(0, 0, 0, 0) && published == []
    {
      msgTotalNumber := 0;
      msgSentNumber := 0;
      msgSuccessNumber := 0;
      msgFailedNumber := 0;
      published := [];
    }
  }

  /** `sendMsg` (lines 53-74). */
  method SendMessage(g: GoPluginState, msg: Bytes, sendOk: bool, flushOk: bool) returns (progress: Option<GoProgress>)
    modifies g
    ensures g.Counts() == AfterSend(old(g.Counts()), sendOk, flushOk)
    ensures g.published == old(g.published) + (if sendOk then [msg] else [])
    ensures progress == ProgressAfter(g.Counts(), sendOk, msg)
  {
    progress := None;
    if sendOk {
      g.published := g.published + [msg];
      g.msgSentNumber := g.msgSentNumber + 1;
      if g.msgSentNumber % FlushEvery == 0 {
        if flushOk {
          g.msgSuccessNumber := g.msgSuccessNumber + 1;
        } else {
          g.msgFailedNumber := g.msgFailedNumber + 1;
        }
        progress := Some(GoProgress(g.msgTotalNumber, g.msgSentNumber, g.msgSuccessNumber, g.msgFailedNumber, msg));
      }
    }
  }

  /** What `output.GetRecord` yields, one frame per call: a record, with the
      producer's answers for its send and for the flush that may follow, or
      a non-zero return (the end of the chunk or a decoding error). */
  datatype GoFrame = Record(record: Value, sendOk: bool, flushOk: bool) | NoRecord

  /** How `FLBPluginFlushCtx` ends: returning a code, or panicking in the
      conversion. */
  datatype GoFlushOutcome = Returned(code: FlushResult) | Panicked

  /** The counters after one record of the flush loop (lines 119-132); on a
      panic, after the increment of the total that precedes it. */
  function RecordStep(c: GoCounts, f: GoFrame, marshal: Value -> Option<Bytes>): (r: GoCounts)
    requires f.Record?
    ensures r.total == c.total + 1
    ensures TranslateData(f.record).None? ==> r == c.(total := c.total + 1)
    ensures TranslateData(f.record).Some? && marshal(TranslateData(f.record).value).None? ==>
      r == c.(total := c.total + 1, failed := c.failed + 1)
    ensures TranslateData(f.record).Some? && marshal(TranslateData(f.record).value).Some? ==>
      r == AfterSend(c.(total := c.total + 1), f.sendOk, f.flushOk)
  {
    var c1 := c.(total := c.total + 1);
    var formatted := TranslateData(f.record);
    if formatted.None? then c1
    else
      var payload := marshal(formatted.value);
      if payload.None? then c1.(failed := c1.failed + 1)
      else AfterSend(c1, f.sendOk, f.flushOk)
  }

  /** The payload the flush loop hands to `sendMsg` for a record, if any. */
  function PayloadOf(f: GoFrame, marshal: Value -> Option<Bytes>): Option<Bytes>
    requires f.Record?
  {
    var formatted := TranslateData(f.record);
    if formatted.None? then None else marshal(formatted.value)
  }

  /** Whether the flush loop panics on `frames`. */
  predicate GoPanics(frames: seq<GoFrame>)
    decreases |frames|
  {
    frames != [] && frames[0].Record? &&
    (TranslateData(frames[0].record).None? || GoPanics(frames[1..]))
  }

  /** The counters after the flush loop has gone through `frames`. */
  function GoBatch(c: GoCounts, frames: seq<GoFrame>, marshal: Value -> Option<Bytes>): GoCounts
    decreases |frames|
  {
    if frames == [] || frames[0].NoRecord? then c
    else if TranslateData(frames[0].record).None? then RecordStep(c, frames[0], marshal)
    else GoBatch(RecordStep(c, frames[0], marshal), frames[1..], marshal)
  }

  /** The payloads the producer accepts during the flush loop, in order. */
  function GoPublished(frames: seq<GoFrame>, marshal: Value -> Option<Bytes>): seq<Bytes>
    decreases |frames|
  {
    if frames == [] || frames[0].NoRecord? || TranslateData(frames[0].record).None? then []
    else
      var payload := PayloadOf(frames[0], marshal);
      (if payload.Some? && frames[0].sendOk then [payload.value] else []) + GoPublished(frames[1..], marshal)
  }

  /** One turn of the flush loop, on the record at `i`. */
  lemma GoFlushStep(c: GoCounts, frames: seq<GoFrame>, i: nat, marshal: Value -> Option<Bytes>)
    requires i < |frames| && frames[i].Record?
    ensures TranslateData(frames[i].record).None? ==>
      GoBatch(c, frames[i..], marshal) == RecordStep(c, frames[i], marshal) &&
      GoPublished(frames[i..], marshal) == [] && GoPanics(frames[i..])
    ensures TranslateData(frames[i].record).Some? ==>
      GoBatch(c, frames[i..], marshal) == GoBatch(RecordStep(c, frames[i], marshal), frames[i + 1..], marshal) &&
      GoPublished(frames[i..], marshal) ==
        (if PayloadOf(frames[i], marshal).Some? && frames[i].sendOk then [PayloadOf(frames[i], marshal).value] else []) +
        GoPublished(frames[i + 1..], marshal) &&
      GoPanics(frames[i..]) == GoPanics(frames[i + 1..])
  {
    assert frames[i..][0] == frames[i] && frames[i..][1..] == frames[i + 1..];
  }

  /** Where the flush loop stops without a panic, nothing is left to do. */
  lemma GoFlushEnd(c: GoCounts, frames: seq<GoFrame>, i: nat, marshal: Value -> Option<Bytes>)
    requires i <= |frames| && (i == |frames| || frames[i].NoRecord?)
    ensures GoBatch(c, frames[i..], marshal) == c
    ensures GoPublished(frames[i..], marshal) == []
    ensures !GoPanics(frames[i..])
  {
    if i < |frames| {
      assert frames[i..][0] == frames[i];
    }
  }

  /** The body of the flush loop for one record (lines 119-132). */
  method HandleRecord(g: GoPluginState, f: GoFrame, marshal: Value -> Option<Bytes>) returns (panicked: bool)
    requires f.Record?
    modifies g
    ensures panicked <==> TranslateData(f.record).None?
    ensures g.Counts() == RecordStep(old(g.Counts()), f, marshal)
    ensures g.published == old(g.published) +
      (if !panicked && PayloadOf(f, marshal).Some? && f.sendOk then [PayloadOf(f, marshal).value] else [])
  {
    g.msgTotalNumber := g.msgTotalNumber + 1;
    var formatted := Translate(f.record);
    if formatted.None? {
      return true;
    }
    var payload := marshal(formatted.value);
    if payload.None? {
      g.msgFailedNumber := g.msgFailedNumber + 1;
    } else {
      var _ := SendMessage(g, payload.value, f.sendOk, f.flushOk);
    }
    panicked := false;
  }

  /** `FLBPluginFlushCtx` (lines 110-137): count every decoded record, send
      the ones that serialise, count the others as failures, stop at the
      first non-zero return of the decoder, and return `FLB_OK`; or panic in
      the conversion. */
  method FlushCtx(g: GoPluginState, frames: seq<GoFrame>, marshal: Value -> Option<Bytes>) returns (outcome: GoFlushOutcome)
    modifies g
    ensures outcome == if GoPanics(frames) then Panicked else Returned(FlbOk)
    ensures g.Counts() == GoBatch(old(g.Counts()), frames, marshal)
    ensures g.published == old(g.published) + GoPublished(frames, marshal)
  {
    ghost var c0 := g.Counts();
    ghost var p0 := g.published;
    var i := 0;
    while i < |frames| && frames[i].Record?
      invariant 0 <= i <= |frames|
      invariant GoBatch(g.Counts(), frames[i..], marshal) == GoBatch(c0, frames, marshal)
      invariant g.published + GoPublished(frames[i..], marshal) == p0 + GoPublished(frames, marshal)
      invariant GoPanics(frames[i..]) == GoPanics(frames)
    {
      ghost var sent0 := g.published;
      GoFlushStep(g.Counts(), frames, i, marshal);
      var panicked := HandleRecord(g, frames[i], marshal);
      if panicked {
        return Panicked;
      }
      ghost var payload := PayloadOf(frames[i], marshal);
      ghost var line := if payload.Some? && frames[i].sendOk then [payload.value] else [];
      Reassociate(sent0, line, GoPublished(frames[i + 1..], marshal));
      i := i + 1;
    }
    GoFlushEnd(g.Counts(), frames, i, marshal);
    return Returned(FlbOk);
  }

  /** Every record is accounted for at most once, and every flush outcome
      (success or failure) stands for a `FlushEvery`-th sent message: sent
      messages never outnumber records, and successes, failures and sent
      messages together never exceed the records plus the flushes. */
  predicate Consistent(c: GoCounts) {
    c.sent <= c.total && c.success + c.failed + c.sent <= c.total + c.sent / FlushEvery
  }

  lemma RecordStepConsistent(c: GoCounts, f: GoFrame, marshal: Value -> Option<Bytes>)
    requires f.Record? && Consistent(c)
    ensures Consistent(RecordStep(c, f, marshal))
  {
    DivStep(c.sent, FlushEvery);
  }

  /** A flush keeps the counters consistent. */
  lemma {:induction false} GoBatchConsistent(c: GoCounts, frames: seq<GoFrame>, marshal: Value -> Option<Bytes>)
    requires Consistent(c)
    ensures Consistent(GoBatch(c, frames, marshal))
    decreases |frames|
  {
    if frames != [] && frames[0].Record? {
      RecordStepConsistent(c, frames[0], marshal);
      if TranslateData(frames[0].record).Some? {
        GoBatchConsistent(RecordStep(c, frames[0], marshal), frames[1..], marshal);
      }
    }
  }

  /** The number of frames before the first non-zero return of the decoder. */
  function DecodedCount(frames: seq<GoFrame>): (n: nat)
    ensures n <= |frames|
    decreases |frames|
  {
    if frames == [] || frames[0].NoRecord? then 0 else 1 + DecodedCount(frames[1..])
  }

  /** Without a panic the total grows by one per decoded record, and in any
      case the sent counter grows by the number of payloads the producer
      accepted. */
  lemma {:induction false} GoBatchCounts(c: GoCounts, frames: seq<GoFrame>, marshal: Value -> Option<Bytes>)
    ensures !GoPanics(frames) ==> GoBatch(c, frames, marshal).total == c.total + DecodedCount(frames)
    ensures GoBatch(c, frames, marshal).sent == c.sent + |GoPublished(frames, marshal)|
    decreases |frames|
  {
    if frames != [] && frames[0].Record? && TranslateData(frames[0].record).Some? {
      GoBatchCounts(RecordStep(c, frames[0], marshal), frames[1..], marshal);
    }
  }

  /** Whatever follows the first non-zero return of the decoder is neither
      counted nor sent. */
  lemma {:induction false} GoTailIgnored(c: GoCounts, a: seq<GoFrame>, b: seq<GoFrame>, marshal: Value -> Option<Bytes>)
    requires forall i :: 0 <= i < |a| ==> a[i].Record?
    ensures GoBatch(c, a + [NoRecord] + b, marshal) == GoBatch(c, a, marshal)
    ensures GoPublished(a + [NoRecord] + b, marshal) == GoPublished(a, marshal)
    ensures GoPanics(a + [NoRecord] + b) == GoPanics(a)
    decreases |a|
  {
    var f := a + [NoRecord] + b;
    if a == [] {
      assert f[0] == NoRecord;
    } else {
      assert f[0] == a[0] && f[1..] == a[1..] + [NoRecord] + b;
      GoTailIgnored(RecordStep(c, a[0], marshal), a[1..], b, marshal);
    }
  }
}
