/** Vocabulary shared by the C and the Go halves of the plugin: bytes and
    the UTF-8 encoding that turns text into them, an optional value,
    C strings, C-string comparison as `strcasecmp` does it, `atol`, and
    the first-match lookup that an if/else-if chain of `strcasecmp` tests
    performs. */
module Common {

  newtype byte = x: int | 0 <= x < 256

  type Bytes = seq<byte>

  datatype Option<+T> = None | Some(value: T) {
    function GetOr(default: T): T {
      match this
      case Some(v) => v
      case None => default
    }
  }

  /** Text that a C string can hold: no NUL before its terminator. */
  predicate NulFree(s: string) {
    '\0' !in s
  }

  /** The bytes of a NUL-terminated buffer up to (not including) its first
      zero byte: what `strlen` measures and what a `%s` prints. */
  function CString(buf: Bytes): (s: Bytes)
    ensures s <= buf && 0 !in s
    ensures |s| < |buf| ==> buf[|s|] == 0
  {
    if buf == [] || buf[0] == 0 then [] else [buf[0]] + CString(buf[1..])
  }

  /** A zero-free byte string followed by its terminator reads back as itself. */
  lemma {:induction false} CStringOfTerminated(s: Bytes, rest: Bytes)
    requires 0 !in s
    ensures CString(s + [0] + rest) == s
  {
    if s != [] {
      assert (s + [0] + rest)[1..] == s[1..] + [0] + rest;
      CStringOfTerminated(s[1..], rest);
    }
  }

  /** The UTF-8 encoding of one character: one byte below U+0080, then a
      lead byte and one to three continuation bytes. */
  function EncodeChar(c: char): (b: Bytes)
    ensures 1 <= |b| <= 4
    ensures |b| == 1 <==> c as int < 0x80
    ensures c as int < 0x80 ==> b == [c as int as byte]
    ensures c != '\0' ==> 0 !in b
  {
    var cp := c as int;
    if cp < 0x80 then [cp as byte]
    else if cp < 0x800 then [(0xC0 + cp / 0x40) as byte, (0x80 + cp % 0x40) as byte]
    else if cp < 0x10000 then
      [(0xE0 + cp / 0x1000) as byte, (0x80 + cp / 0x40 % 0x40) as byte, (0x80 + cp % 0x40) as byte]
    else
      [(0xF0 + cp / 0x40000) as byte, (0x80 + cp / 0x1000 % 0x40) as byte,
       (0x80 + cp / 0x40 % 0x40) as byte, (0x80 + cp % 0x40) as byte]
  }

  /** The bytes a C `char *` or a Go `string` holds for the text `s`: its
      UTF-8 encoding. `strlen` and Go's `len` count these bytes. */
  function Utf8(s: string): (b: Bytes)
    ensures |b| >= |s|
  {
    if s == [] then [] else EncodeChar(s[0]) + Utf8(s[1..])
  }

  /** Encoding distributes over concatenation. */
  lemma {:induction false} Utf8Concat(a: string, b: string)
    ensures Utf8(a + b) == Utf8(a) + Utf8(b)
  {
    if a != [] {
      assert (a + b)[0] == a[0] && (a + b)[1..] == a[1..] + b;
      Utf8Concat(a[1..], b);
      assert Utf8(a + b) == EncodeChar(a[0]) + (Utf8(a[1..]) + Utf8(b));
    } else {
      assert a + b == b;
    }
  }

  /** Only NUL encodes to a zero byte: a text without NUL is a C string of
      exactly its encoding. */
  lemma {:induction false} Utf8NulFree(s: string)
    requires NulFree(s)
    ensures 0 !in Utf8(s)
  {
    if s != [] {
      Utf8NulFree(s[1..]);
    }
  }

  /** Text below U+0080 has one byte per character, so the byte count and
      the character count agree. */
  lemma {:induction false} Utf8Ascii(s: string)
    requires forall i :: 0 <= i < |s| ==> s[i] as int < 0x80
    ensures |Utf8(s)| == |s|
    ensures forall i :: 0 <= i < |s| ==> Utf8(s)[i] == s[i] as int as byte
  {
    if s != [] {
      Utf8Ascii(s[1..]);
    }
  }

  /** `tolower` in the C locale. */
  function ToLower(c: char): char {
    if 'A' <= c <= 'Z' then (c as int + 32) as char else c
  }

  /** `strcasecmp(a, b) == 0` for two NUL-free strings. */
  predicate EqualsIgnoreCase(a: string, b: string) {
    |a| == |b| && forall i :: 0 <= i < |a| ==> ToLower(a[i]) == ToLower(b[i])
  }

  lemma EqualsIgnoreCaseEquivalence(a: string, b: string, c: string)
    ensures EqualsIgnoreCase(a, a)
    ensures EqualsIgnoreCase(a, b) ==> EqualsIgnoreCase(b, a)
    ensures EqualsIgnoreCase(a, b) && EqualsIgnoreCase(b, c) ==> EqualsIgnoreCase(a, c)
  {
  }

  /** Entry `i` of `table` is the first whose name matches `s` ignoring case. */
  predicate FirstMatch<T>(table: seq<(string, T)>, s: string, i: int) {
    0 <= i < |table| && EqualsIgnoreCase(table[i].0, s) &&
    forall j :: 0 <= j < i ==> !EqualsIgnoreCase(table[j].0, s)
  }

  /** The value chosen by an if/else-if chain of `strcasecmp(name, s)` tests,
      tried in the order of `table`; `None` when no branch matches. */
  function Lookup<T(==)>(table: seq<(string, T)>, s: string): (r: Option<T>)
    ensures r.None? <==> forall i :: 0 <= i < |table| ==> !EqualsIgnoreCase(table[i].0, s)
    ensures r.Some? ==> exists i :: FirstMatch(table, s, i) && table[i].1 == r.value
  {
    if table == [] then None
    else if EqualsIgnoreCase(table[0].0, s) then
      assert FirstMatch(table, s, 0);
      Some(table[0].1)
    else
      var r := Lookup(table[1..], s);
      if r.Some? then
        var i :| FirstMatch(table[1..], s, i) && table[1..][i].1 == r.value;
        assert FirstMatch(table, s, i + 1);
        r
      else
        assert forall i :: 1 <= i < |table| ==> table[i] == table[1..][i - 1];
        r
  }

  /** No two names of `table` are equal ignoring case. */
  predicate DistinctNames<T>(table: seq<(string, T)>) {
    forall i, j :: 0 <= i < j < |table| ==> !EqualsIgnoreCase(table[i].0, table[j].0)
  }

  /** With distinct names, looking up the name of entry `i` finds entry `i`. */
  lemma {:induction false} LookupName<T>(table: seq<(string, T)>, i: nat)
    requires DistinctNames(table) && i < |table|
    ensures Lookup(table, table[i].0) == Some(table[i].1)
  {
    EqualsIgnoreCaseEquivalence(table[i].0, table[i].0, table[i].0);
    if i > 0 {
      EqualsIgnoreCaseEquivalence(table[0].0, table[i].0, table[i].0);
      assert table[1..][i - 1] == table[i];
      LookupName(table[1..], i - 1);
    }
  }

  /** The lookup does not depend on the case of the looked-up string. */
  lemma {:induction false} LookupIgnoresCase<T>(table: seq<(string, T)>, s: string, t: string)
    requires EqualsIgnoreCase(s, t)
    ensures Lookup(table, s) == Lookup(table, t)
  {
    if table != [] {
      EqualsIgnoreCaseEquivalence(table[0].0, s, t);
      EqualsIgnoreCaseEquivalence(table[0].0, t, s);
      EqualsIgnoreCaseEquivalence(s, t, t);
      LookupIgnoresCase(table[1..], s, t);
    }
  }

  /** `isspace` in the C locale. */
  predicate IsSpace(c: char) {
    c == ' ' || c == '\t' || c == '\n' || c == '\r' || c == 11 as char || c == 12 as char
  }

  predicate IsDigit(c: char) {
    '0' <= c <= '9'
  }

  /** The longest prefix of `s` made of decimal digits. */
  function LeadingDigits(s: string): (d: string)
    ensures d <= s
    ensures forall i :: 0 <= i < |d| ==> IsDigit(d[i])
    ensures |d| < |s| ==> !IsDigit(s[|d|])
  {
    if s == [] || !IsDigit(s[0]) then [] else [s[0]] + LeadingDigits(s[1..])
  }

  /** The value of a string of decimal digits, most significant first. */
  function DecimalValue(d: string): (v: nat)
    requires forall i :: 0 <= i < |d| ==> IsDigit(d[i])
  {
    if d == [] then 0
    else
      assert IsDigit(d[|d| - 1]);
      10 * DecimalValue(d[..|d| - 1]) + (d[|d| - 1] as int - '0' as int)
  }

  function DropSpaces(s: string): (t: string)
    ensures t <= s || (|t| <= |s| && t == s[|s| - |t|..])
    ensures t != [] ==> !IsSpace(t[0])
  {
    if s != [] && IsSpace(s[0]) then DropSpaces(s[1..]) else s
  }

  /** `atol`: leading white space, an optional sign, then the longest run of
      decimal digits; 0 when there is no digit. Overflow of `long` is outside
      the model. */
  function Atol(s: string): int {
    var t := DropSpaces(s);
    if t != [] && t[0] == '-' then -(DecimalValue(LeadingDigits(t[1..])) as int)
    else if t != [] && t[0] == '+' then DecimalValue(LeadingDigits(t[1..]))
    else DecimalValue(LeadingDigits(t))
  }

  /** A value written with a minus sign, or with no digit after the optional
      sign, is never positive. */
  lemma AtolNotPositive(s: string)
    requires var t := DropSpaces(s);
             (t != [] && t[0] == '-') ||
             LeadingDigits(if t != [] && t[0] == '+' then t[1..] else t) == []
    ensures Atol(s) <= 0
  {
  }

  /** A string of digits has the value its digits denote. */
  lemma {:induction false} AtolOfDigits(d: string)
    requires forall i :: 0 <= i < |d| ==> IsDigit(d[i])
    ensures Atol(d) == DecimalValue(d)
  {
    if d != [] {
      assert !IsSpace(d[0]) && d[0] != '-' && d[0] != '+';
      AllDigitsAreLeading(d);
    }
  }

  lemma {:induction false} AllDigitsAreLeading(d: string)
    requires forall i :: 0 <= i < |d| ==> IsDigit(d[i])
    ensures LeadingDigits(d) == d
  {
    if d != [] {
      AllDigitsAreLeading(d[1..]);
    }
  }

  /** `DEFAULT_SHOW_INTERVAL` of both C plugins: a progress line every 200
      messages unless configured otherwise. */
  const DefaultShowInterval: nat := 200

  lemma Reassociate<T>(a: seq<T>, b: seq<T>, c: seq<T>)
    ensures a + (b + c) == (a + b) + c
  {
  }

  /** What a flush callback reports to the host: `FLB_OK`, `FLB_ERROR`,
      `FLB_RETRY`. */
  datatype FlushResult = FlbOk | FlbError | FlbRetry

  /** Whether `n + 1` is a multiple of `k` decides whether `(n + 1) / k`
      moves past `n / k`. */
  lemma DivStep(n: nat, k: nat)
    requires k > 0
    ensures (n + 1) / k == n / k + (if (n + 1) % k == 0 then 1 else 0)
  {
    var q, r := n / k, n % k;
    assert n == q * k + r;
    if r + 1 == k {
      assert (q + 1) * k == q * k + k;
      DivUnique(n + 1, k, q + 1, 0);
    } else {
      DivUnique(n + 1, k, q, r + 1);
    }
  }

  /** Quotient and remainder are the only ones with the division equation. */
  lemma DivUnique(m: nat, k: nat, q: nat, r: nat)
    requires k > 0 && r < k && m == q * k + r
    ensures m / k == q && m % k == r
  {
    var q', r' := m / k, m % k;
    assert m == q' * k + r';
    if q' > q {
      MulAtLeastOnce(q' - q, k);
    } else if q' < q {
      MulAtLeastOnce(q - q', k);
    }
  }

  lemma {:induction false} MulAtLeastOnce(a: nat, k: nat)
    requires a >= 1
    ensures a * k >= k
  {
    if a > 1 {
      MulAtLeastOnce(a - 1, k);
      assert a * k == (a - 1) * k + k;
    }
  }
}
