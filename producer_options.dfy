/** How the plugin turns configuration text into producer settings: the
    names it prints for the client's enumerations, the case-insensitive
    parsing of those names, and the rule that a numeric property is applied
    only above a threshold. Both generations of the C plugin use these rules. */
module ProducerOptions {
  import opened Common
  import opened PulsarApi

  /** The properties the host holds for the output instance, by key. */
  type Properties = map<string, string>

  /** The host hands out C strings, so no value holds a NUL. */
  predicate CValues(props: Properties) {
    forall k :: k in props ==> NulFree(props[k])
  }

  /** `flb_output_get_property(key, ins)`: the host's value for `key`, or
      `None` for NULL. */
  function GetProperty(props: Properties, key: string): (r: Option<string>)
    ensures r.Some? <==> key in props
    ensures r.Some? ==> r.value == props[key]
  {
    if key in props then Some(props[key]) else None
  }

  /** The settings a parsing step hands to the producer configuration. A
      `Some` field is a setter call with that value; `None` leaves the
      client library's default in place. */
  datatype ProducerSettings = ProducerSettings(
    producerName: Option<string>,
    compression: Option<Compression>,
    sendTimeoutMs: Option<int>,
    routingMode: Option<RoutingMode>,
    batchingEnabled: Option<bool>,
    batchingMaxMessages: Option<int>,
    batchingMaxBytes: Option<int>,
    batchingMaxPublishDelay: Option<int>,
    blockIfQueueFull: Option<bool>,
    maxPendingMessages: Option<int>,
    maxPendingMessagesAcrossPartitions: Option<int>,
    hashingScheme: Option<HashingScheme>,
    cryptoFailureAction: Option<CryptoFailureAction>)

  /** No producer setter called: every choice left to the client library. */
  const UnsetProducerSettings := ProducerSettings(None, None, None, None, None, None, None, None, None, None, None, None, None)

  /** `table` lists every value of `T`, value `x` at position `index(x)`,
      under the name `name` gives it. */
  ghost predicate NamesTable<T(!new)>(table: seq<(string, T)>, name: T -> string, index: T -> nat) {
    (forall i :: 0 <= i < |table| ==> table[i].0 == name(table[i].1)) &&
    (forall x: T :: index(x) < |table| && table[index(x)].1 == x)
  }

  /** Two strings that differ, ignoring case, at position `i` are not equal
      for `strcasecmp`. */
  lemma DifferAt(a: string, b: string, i: nat)
    requires i < |a| && i < |b| && ToLower(a[i]) != ToLower(b[i])
    ensures !EqualsIgnoreCase(a, b)
  {
  }

  /** Parsing through a names table accepts exactly the strings equal,
      ignoring case, to some value's name, and then yields such a value; and
      with distinct names it inverts `name`. */
  lemma ParsingByNames<T(!new)>(table: seq<(string, T)>, name: T -> string, index: T -> nat, s: string, x: T)
    requires NamesTable(table, name, index)
    ensures Lookup(table, s).None? <==> forall y: T :: !EqualsIgnoreCase(name(y), s)
    ensures Lookup(table, s).Some? ==> EqualsIgnoreCase(name(Lookup(table, s).value), s)
    ensures DistinctNames(table) ==> Lookup(table, name(x)) == Some(x)
  {
    if Lookup(table, s).None? {
      forall y: T ensures !EqualsIgnoreCase(name(y), s) {
        assert table[index(y)].0 == name(y);
      }
    }
    if DistinctNames(table) {
      LookupName(table, index(x));
    }
  }

  /** `get_producer_compression_type` (its `default` branch is unreachable
      for the five values of the enumeration). */
  function CompressionName(c: Compression): string {
    match c
    case CompressionNone => "NONE"
    case CompressionLZ4 => "LZ4"
    case CompressionZLib => "ZLIB"
    case CompressionZSTD => "ZSTD"
    case CompressionSNAPPY => "SNAPPY"
  }

  /** The if/else-if chain on the compression property, in program order. */
  const CompressionTable: seq<(string, Compression)> := [
    ("NONE", CompressionNone), ("LZ4", CompressionLZ4), ("ZLIB", CompressionZLib),
    ("ZSTD", CompressionZSTD), ("SNAPPY", CompressionSNAPPY)]

  /** The compression setter call made for a property value, if any: none
      when the property is absent or names no compression type. */
  function ParseCompression(pvalue: Option<string>): Option<Compression> {
    if pvalue.None? then None else Lookup(CompressionTable, pvalue.value)
  }

  /** Where `CompressionTable` lists each value. */
  function CompressionIndex(d: Compression): nat {
    match d
    case CompressionNone => 0
    case CompressionLZ4 => 1
    case CompressionZLib => 2
    case CompressionZSTD => 3
    case CompressionSNAPPY => 4
  }

  /** `CompressionTable` lists every value once, under its printed name, and no
      two of its names are equal ignoring case. */
  lemma CompressionTableNames()
    ensures NamesTable(CompressionTable, CompressionName, CompressionIndex)
    ensures DistinctNames(CompressionTable)
  {
    forall i, j | 0 <= i < j < |CompressionTable|
      ensures !EqualsIgnoreCase(CompressionTable[i].0, CompressionTable[j].0)
    {
      var a, b := CompressionTable[i].0, CompressionTable[j].0;
      if |a| == |b| {
        DifferAt(a, b, if a[0] == 'Z' && b[0] == 'Z' then 1 else 0);
      }
    }
  }

  /** Compression parsing accepts exactly the five names in any case, and
      parsing a printed name gives back the compression type. */
  lemma CompressionParsing(s: string, c: Compression)
    ensures ParseCompression(Some(s)).None? <==> forall d :: !EqualsIgnoreCase(CompressionName(d), s)
    ensures ParseCompression(Some(s)).Some? ==> EqualsIgnoreCase(CompressionName(ParseCompression(Some(s)).value), s)
    ensures ParseCompression(Some(CompressionName(c))) == Some(c)
  {
    CompressionTableNames();
    ParsingByNames(CompressionTable, CompressionName, CompressionIndex, s, c);
  }

  /** `get_producer_partitions_routing_mode`. */
  function RoutingModeName(m: RoutingMode): string {
    match m
    case UseSinglePartition => "UseSingle"
    case RoundRobinDistribution => "RoundRobin"
    case CustomPartition => "Custom"
  }

  const RoutingModeTable: seq<(string, RoutingMode)> := [
    ("UseSingle", UseSinglePartition), ("RoundRobin", RoundRobinDistribution), ("Custom", CustomPartition)]

  function ParseRoutingMode(pvalue: Option<string>): Option<RoutingMode> {
    if pvalue.None? then None else Lookup(RoutingModeTable, pvalue.value)
  }

  /** Where `RoutingModeTable` lists each value. */
  function RoutingModeIndex(d: RoutingMode): nat {
    match d
    case UseSinglePartition => 0
    case RoundRobinDistribution => 1
    case CustomPartition => 2
  }

  /** `RoutingModeTable` lists every value once, under its printed name, and no
      two of its names are equal ignoring case. */
  lemma RoutingModeTableNames()
    ensures NamesTable(RoutingModeTable, RoutingModeName, RoutingModeIndex)
    ensures DistinctNames(RoutingModeTable)
  {
  }

  lemma RoutingModeParsing(s: string, m: RoutingMode)
    ensures ParseRoutingMode(Some(s)).None? <==> forall d :: !EqualsIgnoreCase(RoutingModeName(d), s)
    ensures ParseRoutingMode(Some(s)).Some? ==> EqualsIgnoreCase(RoutingModeName(ParseRoutingMode(Some(s)).value), s)
    ensures ParseRoutingMode(Some(RoutingModeName(m))) == Some(m)
  {
    RoutingModeTableNames();
    ParsingByNames(RoutingModeTable, RoutingModeName, RoutingModeIndex, s, m);
  }

  /** `get_producer_hashing_scheme` (its `default` branch is unreachable). */
  function HashingSchemeName(h: HashingScheme): string {
    match h
    case JavaStringHash => "JavaStringHash"
    case Murmur3_32Hash => "Murmur3_32Hash"
    case BoostHash => "BoostHash"
  }

  const HashingSchemeTable: seq<(string, HashingScheme)> := [
    ("Murmur3_32Hash", Murmur3_32Hash), ("BoostHash", BoostHash), ("JavaStringHash", JavaStringHash)]

  function ParseHashingScheme(pvalue: Option<string>): Option<HashingScheme> {
    if pvalue.None? then None else Lookup(HashingSchemeTable, pvalue.value)
  }

  /** Where `HashingSchemeTable` lists each value. */
  function HashingSchemeIndex(d: HashingScheme): nat {
    match d
    case Murmur3_32Hash => 0
    case BoostHash => 1
    case JavaStringHash => 2
  }

  /** `HashingSchemeTable` lists every value once, under its printed name, and no
      two of its names are equal ignoring case. */
  lemma HashingSchemeTableNames()
    ensures NamesTable(HashingSchemeTable, HashingSchemeName, HashingSchemeIndex)
    ensures DistinctNames(HashingSchemeTable)
  {
    forall i, j | 0 <= i < j < |HashingSchemeTable|
      ensures !EqualsIgnoreCase(HashingSchemeTable[i].0, HashingSchemeTable[j].0)
    {
      var a, b := HashingSchemeTable[i].0, HashingSchemeTable[j].0;
      if |a| == |b| {
        DifferAt(a, b, 0);
      }
    }
  }

  lemma HashingSchemeParsing(s: string, h: HashingScheme)
    ensures ParseHashingScheme(Some(s)).None? <==> forall d :: !EqualsIgnoreCase(HashingSchemeName(d), s)
    ensures ParseHashingScheme(Some(s)).Some? ==> EqualsIgnoreCase(HashingSchemeName(ParseHashingScheme(Some(s)).value), s)
    ensures ParseHashingScheme(Some(HashingSchemeName(h))) == Some(h)
  {
    HashingSchemeTableNames();
    ParsingByNames(HashingSchemeTable, HashingSchemeName, HashingSchemeIndex, s, h);
  }

  /** `get_producer_crypto_failure_action` (its `default` branch is unreachable). */
  function CryptoFailureActionName(a: CryptoFailureAction): string {
    match a
    case ProducerSend => "SEND"
    case ProducerFail => "FAIL"
  }

  const CryptoFailureActionTable: seq<(string, CryptoFailureAction)> := [
    ("FAIL", ProducerFail), ("SEND", ProducerSend)]

  function ParseCryptoFailureAction(pvalue: Option<string>): Option<CryptoFailureAction> {
    if pvalue.None? then None else Lookup(CryptoFailureActionTable, pvalue.value)
  }

  /** Where `CryptoFailureActionTable` lists each value. */
  function CryptoFailureActionIndex(d: CryptoFailureAction): nat {
    match d
    case ProducerFail => 0
    case ProducerSend => 1
  }

  /** `CryptoFailureActionTable` lists every value once, under its printed name, and no
      two of its names are equal ignoring case. */
  lemma CryptoFailureActionTableNames()
    ensures NamesTable(CryptoFailureActionTable, CryptoFailureActionName, CryptoFailureActionIndex)
    ensures DistinctNames(CryptoFailureActionTable)
  {
    DifferAt("FAIL", "SEND", 0);
  }

  lemma CryptoFailureActionParsing(s: string, a: CryptoFailureAction)
    ensures ParseCryptoFailureAction(Some(s)).None? <==> forall d :: !EqualsIgnoreCase(CryptoFailureActionName(d), s)
    ensures ParseCryptoFailureAction(Some(s)).Some? ==> EqualsIgnoreCase(CryptoFailureActionName(ParseCryptoFailureAction(Some(s)).value), s)
    ensures ParseCryptoFailureAction(Some(CryptoFailureActionName(a))) == Some(a)
  {
    CryptoFailureActionTableNames();
    ParsingByNames(CryptoFailureActionTable, CryptoFailureActionName, CryptoFailureActionIndex, s, a);
  }

  /** The "true"/"false" properties: a setter call only for those two words,
      in any case; any other value is ignored without a warning. */
  function ParseBool(pvalue: Option<string>): (r: Option<bool>)
    ensures r == Some(true) <==> pvalue.Some? && EqualsIgnoreCase("true", pvalue.value)
    ensures r == Some(false) <==> pvalue.Some? && EqualsIgnoreCase("false", pvalue.value)
  {
    if pvalue.None? then None
    else if EqualsIgnoreCase("true", pvalue.value) then Some(true)
    else if EqualsIgnoreCase("false", pvalue.value) then Some(false)
    else None
  }

  /** A numeric property: set to `atol` of its value when that exceeds
      `floor` (0 for most properties, a byte count for the memory limit). */
  function SettingAbove(pvalue: Option<string>, floor: int): (r: Option<int>)
    ensures r.Some? <==> pvalue.Some? && Atol(pvalue.value) > floor
    ensures r.Some? ==> r.value == Atol(pvalue.value) && r.value > floor
  {
    if pvalue.Some? && floor < Atol(pvalue.value) then Some(Atol(pvalue.value)) else None
  }

  /** A non-positive or non-numeric value never reaches a setter. */
  lemma NegativeSettingIgnored(s: string, floor: nat)
    requires var t := DropSpaces(s);
             (t != [] && t[0] == '-') ||
             LeadingDigits(if t != [] && t[0] == '+' then t[1..] else t) == []
    ensures SettingAbove(Some(s), floor).None?
  {
    AtolNotPositive(s);
  }
}
