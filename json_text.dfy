/**
 * Python's `json` text as the supplier's settings use it: `json.dumps`
 * with its default options (ASCII-only output, `", "` between items and
 * `": "` after keys) and `json.loads` with its default strict scanner
 * (the C scanner of CPython's `_json` module: white space is space, tab,
 * line feed and carriage return; no control character inside a string;
 * `NaN`, `Infinity` and `-Infinity` accepted as numbers).
 */
module JsonText {
  import opened Common

  /** A Python value JSON can carry, without floats: `None`, `bool`, `int`,
    * `str`, `list`, and `dict` with its members in insertion order. */
  datatype JsonValue =
    | JNull
    | JBool(b: bool)
    | JInt(i: int)
    | JString(s: string)
    | JArray(items: seq<JsonValue>)
    | JObject(members: seq<Member>)

  datatype Member = Member(key: string, value: JsonValue)

  /** The keys of a `dict` are distinct. */
  predicate KeysDistinct(ms: seq<Member>) {
    forall i, j :: 0 <= i < j < |ms| ==> ms[i].key != ms[j].key
  }

  /** Every `dict` inside the value has distinct keys, as a Python value
    * always does. */
  predicate WellFormed(v: JsonValue) {
    match v
    case JArray(items) => forall k :: 0 <= k < |items| ==> WellFormed(items[k])
    case JObject(ms) => KeysDistinct(ms) && forall k :: 0 <= k < |ms| ==> WellFormed(ms[k].value)
    case _ => true
  }

  // ---------------------------------------------------------------------
  // json.dumps
  // ---------------------------------------------------------------------

  function HexDigit(d: nat): (c: char)
    requires d < 16
  {
    if d < 10 then DigitChar(d) else ('a' as int + d - 10) as char
  }

  /** `'%04x' % n`: four lower-case hexadecimal digits. */
  function Hex4(n: nat): (r: string)
    requires n < 0x1_0000
  {
    [HexDigit(n / 16 / 16 / 16), HexDigit(n / 16 / 16 % 16), HexDigit(n / 16 % 16), HexDigit(n % 16)]
  }

  /** The UTF-16 surrogate pair of a code point above the Basic
    * Multilingual Plane. */
  function HighSurrogate(c: nat): nat
    requires 0x1_0000 <= c < 0x11_0000
  {
    0xD800 + (c - 0x1_0000) / 0x400
  }

  function LowSurrogate(c: nat): nat
    requires 0x1_0000 <= c < 0x11_0000
  {
    0xDC00 + (c - 0x1_0000) % 0x400
  }

  /** One character as `json.dumps` writes it with `ensure_ascii`: printable
    * ASCII as is, the short escapes for quote, backslash, backspace, form
    * feed, line feed, carriage return and tab, every other character as
    * `\uXXXX` (a surrogate pair above U+FFFF). */
  function Escape(c: char): (r: string)
    ensures r != []
  {
    if c == '"' then ['\\', '"']
    else if c == '\\' then ['\\', '\\']
    else if c == '\U{0008}' then ['\\', 'b']
    else if c == '\U{000C}' then ['\\', 'f']
    else if c == '\n' then ['\\', 'n']
    else if c == '\r' then ['\\', 'r']
    else if c == '\t' then ['\\', 't']
    else if ' ' <= c <= '~' then [c]
    else if c as int < 0x1_0000 then ['\\', 'u'] + Hex4(c as int)
    else ['\\', 'u'] + Hex4(HighSurrogate(c as int)) + ['\\', 'u'] + Hex4(LowSurrogate(c as int))
  }

  function EscapeAll(s: string): string {
    if s == [] then [] else Escape(s[0]) + EscapeAll(s[1..])
  }

  /** A `str` as JSON text. */
  function Quote(s: string): string {
    ['"'] + EscapeAll(s) + ['"']
  }

  /** `str(i)` of an `int`. */
  function IntText(i: int): (r: string)
    ensures r != []
  {
    if i < 0 then ['-'] + NatText(-i) else NatText(i)
  }

  /** The characters a JSON value can begin with. */
  predicate IsValueStart(c: char) {
    c == 'n' || c == 't' || c == 'f' || c == '-' || IsDigit(c) || c == '"' || c == '[' || c == '{'
  }

  /** `json.dumps(v)` with the default options. */
  function Dumps(v: JsonValue): (r: string)
    ensures r != [] && IsValueStart(r[0])
  {
    match v
    case JNull => "null"
    case JBool(b) => if b then "true" else "false"
    case JInt(i) => IntText(i)
    case JString(s) => Quote(s)
    case JArray(items) => if items == [] then "[]" else "[" + ItemsText(items) + "]"
    case JObject(ms) => if ms == [] then "{}" else "{" + MembersText(ms) + "}"
  }

  /** The items of a non-empty list, separated by `", "`. */
  function ItemsText(items: seq<JsonValue>): string
    requires items != []
  {
    Dumps(items[0]) + (if |items| == 1 then "" else ", " + ItemsText(items[1..]))
  }

  /** The members of a non-empty `dict`: `key: value`, separated by `", "`. */
  function MembersText(ms: seq<Member>): string
    requires ms != []
  {
    Quote(ms[0].key) + ": " + Dumps(ms[0].value) +
    (if |ms| == 1 then "" else ", " + MembersText(ms[1..]))
  }

  // ---------------------------------------------------------------------
  // json.loads
  // ---------------------------------------------------------------------

  /** The outcome of scanning a value at the head of a text: the value read,
    * whether it is a value of this model (`false` when it holds a float or
    * a string with an unpaired surrogate), and the text after it. */
  datatype Scan<T> = Fail | Ok(value: T, exact: bool, rest: string)

  predicate IsWs(c: char) { c == ' ' || c == '\t' || c == '\n' || c == '\r' }

  function SkipWs(s: string): (r: string)
    ensures |r| <= |s|
    ensures r == [] || !IsWs(r[0])
  {
    if s != [] && IsWs(s[0]) then SkipWs(s[1..]) else s
  }

  predicate IsHex(c: char) { '0' <= c <= '9' || 'a' <= c <= 'f' || 'A' <= c <= 'F' }

  function HexValue(c: char): (d: nat)
    requires IsHex(c)
    ensures d < 16
  {
    if c <= '9' then c as int - '0' as int
    else if c >= 'a' then c as int - 'a' as int + 10
    else c as int - 'A' as int + 10
  }

  predicate AllHex(s: string) {
    forall i :: 0 <= i < |s| ==> IsHex(s[i])
  }

  function Hex4Value(s: string): (n: nat)
    requires |s| == 4 && AllHex(s)
    ensures n < 0x1_0000
  {
    HexValue(s[0]) * 0x1000 + HexValue(s[1]) * 0x100 + HexValue(s[2]) * 16 + HexValue(s[3])
  }

  predicate IsHighSurrogate(n: nat) { 0xD800 <= n < 0xDC00 }

  predicate IsLowSurrogate(n: nat) { 0xDC00 <= n < 0xE000 }

  function JoinSurrogates(hi: nat, lo: nat): (c: nat)
    requires IsHighSurrogate(hi) && IsLowSurrogate(lo)
    ensures 0x1_0000 <= c < 0x11_0000
  {
    0x1_0000 + (hi - 0xD800) * 0x400 + (lo - 0xDC00)
  }

  /** A character read, in front of the rest of a string's scan. */
  function Cons(c: char, exact: bool, tail: Scan<string>): (r: Scan<string>)
    ensures r.Ok? <==> tail.Ok?
    ensures r.Ok? ==> r.rest == tail.rest && |r.value| == |tail.value| + 1
  {
    if tail.Fail? then Fail else Ok([c] + tail.value, exact && tail.exact, tail.rest)
  }

  /** The character a two-character escape stands for; the other escapes
    * (`\x`, `\'`, ...) are errors. */
  function ShortEscape(c: char): Option<char> {
    if c == '"' || c == '\\' || c == '/' then Some(c)
    else if c == 'b' then Some('\U{0008}')
    else if c == 'f' then Some('\U{000C}')
    else if c == 'n' then Some('\n')
    else if c == 'r' then Some('\r')
    else if c == 't' then Some('\t')
    else None
  }

  /** The body of a string, after its opening quote, up to and including
    * the closing quote. A `\uXXXX` escape of a high surrogate followed
    * (with at least one more character after it) by `\u` and four more
    * characters takes those as its pair: invalid hexadecimal there is an
    * error, a low surrogate joins, anything else leaves the first
    * surrogate unpaired. */
  function ParseString(s: string): (r: Scan<string>)
    ensures r.Ok? ==> |r.value| + |r.rest| < |s|
    decreases |s|
  {
    if s == [] then Fail
    else if s[0] == '"' then Ok([], true, s[1..])
    else if s[0] == '\\' then
      if |s| < 2 then Fail
      else if s[1] != 'u' then
        if ShortEscape(s[1]).None? then Fail
        else Cons(ShortEscape(s[1]).value, true, ParseString(s[2..]))
      else if |s| < 7 || !AllHex(s[2..6]) then Fail
      else
        var c := Hex4Value(s[2..6]);
        if IsHighSurrogate(c) && |s| >= 13 && s[6] == '\\' && s[7] == 'u' then
          if !AllHex(s[8..12]) then Fail
          else if IsLowSurrogate(Hex4Value(s[8..12])) then
            Cons(JoinSurrogates(c, Hex4Value(s[8..12])) as char, true, ParseString(s[12..]))
          else Cons('\U{FFFD}', false, ParseString(s[6..]))
        else if IsHighSurrogate(c) || IsLowSurrogate(c) then Cons('\U{FFFD}', false, ParseString(s[6..]))
        else Cons(c as char, true, ParseString(s[6..]))
    else if s[0] < ' ' then Fail
    else Cons(s[0], true, ParseString(s[1..]))
  }

  /** The length of the run of decimal digits at the head of `s`. */
  function DigitRun(s: string): (n: nat)
    ensures n <= |s|
  {
    if s != [] && IsDigit(s[0]) then 1 + DigitRun(s[1..]) else 0
  }

  lemma {:induction false} DigitRunDigits(s: string)
    ensures forall i :: 0 <= i < DigitRun(s) ==> IsDigit(s[i])
  {
    if s != [] && IsDigit(s[0]) {
      DigitRunDigits(s[1..]);
      forall i | 0 <= i < DigitRun(s) ensures IsDigit(s[i]) {
        if i > 0 { assert s[i] == s[1..][i - 1]; }
      }
    }
  }

  /** The length of an exponent `[eE][-+]?[0-9]+` at the head of `s`, or 0
    * when there is none (the scanner then backs off to before the `e`). */
  function ExponentLength(s: string): (n: nat)
    ensures n <= |s|
  {
    if s != [] && (s[0] == 'e' || s[0] == 'E') then
      var sign := if |s| >= 2 && (s[1] == '+' || s[1] == '-') then 1 else 0;
      var d := DigitRun(s[1 + sign..]);
      if d > 0 then 1 + sign + d else 0
    else 0
  }

  /** The length of a fraction `.[0-9]+` at the head of `s`, or 0. */
  function FractionLength(s: string): (n: nat)
    ensures n <= |s|
  {
    if |s| >= 2 && s[0] == '.' && IsDigit(s[1]) then 1 + DigitRun(s[1..]) else 0
  }

  /** `(0|[1-9][0-9]*)(\.[0-9]+)?([eE][-+]?[0-9]+)?`: an `int` when there is
    * neither fraction nor exponent, a float otherwise. */
  function ParseUnsigned(t: string): (r: Scan<JsonValue>)
    ensures r.Ok? ==> |r.rest| < |t|
  {
    if t == [] || !IsDigit(t[0]) then Fail
    else
      var n := if t[0] == '0' then 1 else DigitRun(t);
      var u := t[n..];
      var frac := FractionLength(u);
      var exp := ExponentLength(u[frac..]);
      if frac > 0 || exp > 0 then Ok(JNull, false, u[frac + exp..])
      else
        DigitRunDigits(t);
        Ok(JInt(ParseDigits(t[..n])), true, u)
  }

  /** A number, with an optional leading minus sign. */
  function ParseNumber(s: string): (r: Scan<JsonValue>)
    ensures r.Ok? ==> |r.rest| < |s|
  {
    if s != [] && s[0] == '-' then
      var r := ParseUnsigned(s[1..]);
      if r.Ok? && r.value.JInt? then Ok(JInt(-r.value.i), true, r.rest) else r
    else ParseUnsigned(s)
  }

  /** `p` is at the head of `s`. */
  predicate Starts(s: string, p: string) {
    IsPrefix(p, s)
  }

  /** One value at the head of `s` (the scanner's `scan_once`). */
  function ParseValue(s: string): (r: Scan<JsonValue>)
    ensures r.Ok? ==> |r.rest| < |s|
    ensures r.Ok? && r.value.JString? ==> |r.value.s| + |r.rest| < |s|
    decreases |s|, 0
  {
    if s == [] then Fail
    else if s[0] == '"' then
      var t := ParseString(s[1..]);
      if t.Fail? then Fail else Ok(JString(t.value), t.exact, t.rest)
    else if s[0] == '[' then
      var t := SkipWs(s[1..]);
      if t != [] && t[0] == ']' then Ok(JArray([]), true, t[1..])
      else
        var items := ParseItems(t);
        if items.Fail? then Fail else Ok(JArray(items.value), items.exact, items.rest)
    else if s[0] == '{' then
      var t := SkipWs(s[1..]);
      if t != [] && t[0] == '}' then Ok(JObject([]), true, t[1..])
      else
        var ms := ParseMembers(t);
        if ms.Fail? then Fail else Ok(JObject(Dict(ms.value)), ms.exact, ms.rest)
    else if s[0] == 'n' then (if Starts(s, "null") then Ok(JNull, true, s[4..]) else Fail)
    else if s[0] == 't' then (if Starts(s, "true") then Ok(JBool(true), true, s[4..]) else Fail)
    else if s[0] == 'f' then (if Starts(s, "false") then Ok(JBool(false), true, s[5..]) else Fail)
    else if s[0] == 'N' then (if Starts(s, "NaN") then Ok(JNull, false, s[3..]) else Fail)
    else if s[0] == 'I' then (if Starts(s, "Infinity") then Ok(JNull, false, s[8..]) else Fail)
    else if Starts(s, "-Infinity") then Ok(JNull, false, s[9..])
    else ParseNumber(s)
  }

  /** The items of a list after its `[` and white space: values separated
    * by `,`, up to and including the `]`. */
  function ParseItems(s: string): (r: Scan<seq<JsonValue>>)
    ensures r.Ok? ==> |r.rest| < |s|
    decreases |s|, 1
  {
    var v := ParseValue(s);
    if v.Fail? then Fail
    else
      var u := SkipWs(v.rest);
      if u != [] && u[0] == ']' then Ok([v.value], v.exact, u[1..])
      else if u != [] && u[0] == ',' then
        var more := ParseItems(SkipWs(u[1..]));
        if more.Fail? then Fail else Ok([v.value] + more.value, v.exact && more.exact, more.rest)
      else Fail
  }

  /** One `"key": value` pair at the head of `s`. */
  function ParseMember(s: string): (r: Scan<Member>)
    ensures r.Ok? ==> |r.rest| < |s|
    decreases |s|, 1
  {
    if s == [] || s[0] != '"' then Fail
    else
      var k := ParseString(s[1..]);
      if k.Fail? then Fail
      else
        var u := SkipWs(k.rest);
        if u == [] || u[0] != ':' then Fail
        else
          var v := ParseValue(SkipWs(u[1..]));
          if v.Fail? then Fail else Ok(Member(k.value, v.value), k.exact && v.exact, v.rest)
  }

  /** The members of an object after its `{` and white space: pairs
    * separated by `,`, up to and including the `}`, in the order written. */
  function ParseMembers(s: string): (r: Scan<seq<Member>>)
    ensures r.Ok? ==> |r.rest| < |s|
    decreases |s|, 2
  {
    var m := ParseMember(s);
    if m.Fail? then Fail
    else
      var w := SkipWs(m.rest);
      if w != [] && w[0] == '}' then Ok([m.value], m.exact, w[1..])
      else if w != [] && w[0] == ',' then
        var more := ParseMembers(SkipWs(w[1..]));
        if more.Fail? then Fail else Ok([m.value] + more.value, m.exact && more.exact, more.rest)
      else Fail
  }

  /** `d[key] = value` on a `dict`: a key already present keeps its place
    * and takes the new value; a new key goes last. */
  function Put(ms: seq<Member>, m: Member): (r: seq<Member>)
    ensures (forall i :: 0 <= i < |ms| ==> ms[i].key != m.key) ==> r == ms + [m]
  {
    if ms == [] then [m]
    else if ms[0].key == m.key then [m] + ms[1..]
    else [ms[0]] + Put(ms[1..], m)
  }

  /** The `dict` built from pairs in the order written: the last value of a
    * repeated key wins, at the place of its first occurrence. */
  function Dict(pairs: seq<Member>): seq<Member>
    decreases |pairs|
  {
    if pairs == [] then [] else Put(Dict(pairs[..|pairs| - 1]), pairs[|pairs| - 1])
  }

  /** What `json.loads(t)` gives. */
  datatype Decoded =
    | Raises              // json.JSONDecodeError
    | Decodes(value: JsonValue)
    | DecodesUnmodelled   // a float, or a string with an unpaired surrogate

  /** `json.loads(t)`: one value with white space around it and nothing
    * else. */
  function Loads(t: string): (r: Decoded) {
    var v := ParseValue(SkipWs(t));
    if v.Fail? || SkipWs(v.rest) != [] then Raises
    else if v.exact then Decodes(v.value)
    else DecodesUnmodelled
  }

  // ---------------------------------------------------------------------
  // Round trip
  // ---------------------------------------------------------------------

  lemma HexDigitValue(d: nat)
    requires d < 16
    ensures IsHex(HexDigit(d)) && HexValue(HexDigit(d)) == d
  {
  }

  lemma Hex4RoundTrip(n: nat)
    requires n < 0x1_0000
    ensures |Hex4(n)| == 4 && AllHex(Hex4(n)) && Hex4Value(Hex4(n)) == n
  {
    HexDigitValue(n / 16 / 16 / 16);
    HexDigitValue(n / 16 / 16 % 16);
    HexDigitValue(n / 16 % 16);
    HexDigitValue(n % 16);
  }

  lemma SurrogatesJoin(c: nat)
    requires 0x1_0000 <= c < 0x11_0000
    ensures IsHighSurrogate(HighSurrogate(c)) && IsLowSurrogate(LowSurrogate(c))
    ensures JoinSurrogates(HighSurrogate(c), LowSurrogate(c)) == c
  {
  }

  /** An escaped character reads back as that character, whatever follows
    * it inside the string. */
  lemma EscapeParses(c: char, tail: string)
    requires tail != []
    ensures ParseString(Escape(c) + tail) == Cons(c, true, ParseString(tail))
  {
    if c == '"' || c == '\\' || c == '\U{0008}' || c == '\U{000C}' || c == '\n' || c == '\r' || c == '\t' {
      ShortEscapeParses(c, tail);
    } else if ' ' <= c <= '~' {
      var s := Escape(c) + tail;
      assert s[1..] == tail;
    } else if c as int < 0x1_0000 {
      UnitEscapeParses(c, tail);
    } else {
      PairEscapeParses(c, tail);
    }
  }

  lemma ShortEscapeParses(c: char, tail: string)
    requires c == '"' || c == '\\' || c == '\U{0008}' || c == '\U{000C}' || c == '\n' || c == '\r' || c == '\t'
    requires tail != []
    ensures ParseString(Escape(c) + tail) == Cons(c, true, ParseString(tail))
  {
    var s := Escape(c) + tail;
    assert s[1] != 'u' && ShortEscape(s[1]) == Some(c);
    assert s[2..] == tail;
  }

  lemma UnitEscapeParses(c: char, tail: string)
    requires c != '"' && c != '\\' && c != '\U{0008}' && c != '\U{000C}' && c != '\n' && c != '\r' && c != '\t'
    requires !(' ' <= c <= '~') && c as int < 0x1_0000
    requires tail != []
    ensures ParseString(Escape(c) + tail) == Cons(c, true, ParseString(tail))
  {
    var s := Escape(c) + tail;
    Hex4RoundTrip(c as int);
    assert s[2..6] == Hex4(c as int);
    assert s[6..] == tail;
  }

  lemma PairEscapeParses(c: char, tail: string)
    requires c as int >= 0x1_0000
    requires tail != []
    ensures ParseString(Escape(c) + tail) == Cons(c, true, ParseString(tail))
  {
    var s := Escape(c) + tail;
    var hi := HighSurrogate(c as int);
    var lo := LowSurrogate(c as int);
    Hex4RoundTrip(hi);
    Hex4RoundTrip(lo);
    SurrogatesJoin(c as int);
    assert s[2..6] == Hex4(hi);
    assert s[6] == '\\' && s[7] == 'u';
    assert s[8..12] == Hex4(lo);
    assert s[12..] == tail;
  }

  /** The escaped text of a string and its closing quote read back as the
    * string. */
  lemma {:induction false} StringParses(s: string, rest: string)
    ensures ParseString(EscapeAll(s) + ['"'] + rest) == Ok(s, true, rest)
  {
    if s == [] {
      assert EscapeAll(s) + ['"'] + rest == ['"'] + rest;
    } else {
      var tail := EscapeAll(s[1..]) + ['"'] + rest;
      assert EscapeAll(s) + ['"'] + rest == Escape(s[0]) + tail;
      EscapeParses(s[0], tail);
      StringParses(s[1..], rest);
      assert [s[0]] + s[1..] == s;
    }
  }

  lemma {:induction false} DigitRunOver(d: string, rest: string)
    requires forall i :: 0 <= i < |d| ==> IsDigit(d[i])
    requires rest == [] || !IsDigit(rest[0])
    ensures DigitRun(d + rest) == |d|
  {
    if d != [] {
      assert (d + rest)[1..] == d[1..] + rest;
      DigitRunOver(d[1..], rest);
    }
  }

  /** What may follow a value inside the text `json.dumps` writes: nothing,
    * or the `,`, `]` or `}` after it. */
  predicate Delimited(rest: string) {
    rest == [] || rest[0] == ',' || rest[0] == ']' || rest[0] == '}'
  }

  /** The decimal text of a natural number reads back as that number. */
  lemma UnsignedParses(m: nat, rest: string)
    requires Delimited(rest)
    ensures ParseUnsigned(NatText(m) + rest) == Ok(JInt(m), true, rest)
  {
    var d := NatText(m);
    NatTextRoundTrip(m);
    var t := d + rest;
    if d[0] == '0' {
      assert d == NatText(0);
    } else {
      DigitRunOver(d, rest);
    }
    assert t[..|d|] == d;
    assert t[|d|..] == rest;
  }

  /** The text of an `int` reads back as that `int`. */
  lemma NumberParses(i: int, rest: string)
    requires Delimited(rest)
    ensures ParseNumber(IntText(i) + rest) == Ok(JInt(i), true, rest)
  {
    if i < 0 {
      NegativeParses(i, rest);
    } else {
      var s := IntText(i) + rest;
      assert s == NatText(i) + rest && s[0] != '-';
      UnsignedParses(i, rest);
    }
  }

  lemma NegativeParses(i: int, rest: string)
    requires i < 0 && Delimited(rest)
    ensures ParseNumber(IntText(i) + rest) == Ok(JInt(i), true, rest)
  {
    UnsignedParses(-i, rest);
    NegativeText(IntText(i), NatText(-i), rest);
    NegativeScan(IntText(i) + rest, NatText(-i) + rest, -i, rest);
  }

  lemma NegativeText(text: string, digits: string, rest: string)
    requires text == ['-'] + digits
    ensures text + rest == ['-'] + (digits + rest)
  {
  }

  /** A minus sign in front of an `int`'s text negates it. */
  lemma NegativeScan(s: string, t: string, m: int, rest: string)
    requires s == ['-'] + t
    requires ParseUnsigned(t) == Ok(JInt(m), true, rest)
    ensures ParseNumber(s) == Ok(JInt(-m), true, rest)
  {
    assert s[1..] == t;
  }

  /** A `dict` with distinct keys is built back in the order written. */
  lemma {:induction false} DictDistinct(ms: seq<Member>)
    requires KeysDistinct(ms)
    ensures Dict(ms) == ms
    decreases |ms|
  {
    if ms != [] {
      var init := ms[..|ms| - 1];
      assert KeysDistinct(init);
      DictDistinct(init);
      assert init + [ms[|ms| - 1]] == ms;
    }
  }

  lemma SkipNone(s: string)
    requires s != [] && !IsWs(s[0])
    ensures SkipWs(s) == s
  {
  }

  /** `json.loads` reads `json.dumps(v)` back as `v`, wherever the text
    * stands inside a larger text. */
  lemma {:induction false} DumpsParses(v: JsonValue, rest: string)
    requires WellFormed(v) && Delimited(rest)
    ensures ParseValue(Dumps(v) + rest) == Ok(v, true, rest)
    decreases v, 1
  {
    match v
    case JNull => LiteralParses(v, rest);
    case JBool(_) => LiteralParses(v, rest);
    case JInt(i) => IntParses(i, rest);
    case JString(str) => StringValueParses(str, rest);
    case JArray(_) => ArrayParses(v, rest);
    case JObject(_) => ObjectParses(v, rest);
  }

  lemma LiteralParses(v: JsonValue, rest: string)
    requires v.JNull? || v.JBool?
    ensures ParseValue(Dumps(v) + rest) == Ok(v, true, rest)
  {
    var s := Dumps(v) + rest;
    if v.JNull? {
      assert s[..4] == "null" && s[4..] == rest;
    } else if v.b {
      assert s[..4] == "true" && s[4..] == rest;
    } else {
      assert s[..5] == "false" && s[5..] == rest;
    }
  }

  lemma IntParses(i: int, rest: string)
    requires Delimited(rest)
    ensures ParseValue(IntText(i) + rest) == Ok(JInt(i), true, rest)
  {
    var s := IntText(i) + rest;
    NatTextRoundTrip(if i < 0 then -i else i);
    if i < 0 {
      assert |s| > 1 && IsDigit(s[1]);
      NotNegativeInfinity(s);
    }
    NumberStep(s);
    NumberParses(i, rest);
  }

  lemma NotNegativeInfinity(s: string)
    requires |s| > 1 && IsDigit(s[1])
    ensures !Starts(s, "-Infinity")
  {
    if |s| >= 9 {
      assert s[..9][1] == s[1];
    }
  }

  /** A value that starts like no other kind of value is scanned as a
    * number. */
  lemma NumberStep(s: string)
    requires s != [] && s[0] != '"' && s[0] != '[' && s[0] != '{'
    requires s[0] != 'n' && s[0] != 't' && s[0] != 'f' && s[0] != 'N' && s[0] != 'I'
    requires !Starts(s, "-Infinity")
    ensures ParseValue(s) == ParseNumber(s)
  {
  }

  lemma StringValueParses(str: string, rest: string)
    ensures ParseValue(Quote(str) + rest) == Ok(JString(str), true, rest)
  {
    var s := Quote(str) + rest;
    assert s[1..] == EscapeAll(str) + ['"'] + rest;
    StringParses(str, rest);
  }

  /** One step of the scanner on a list, an object, and the items and
    * members inside them, on any text. */
  lemma ArrayStep(s: string, t: string)
    requires s != [] && s[0] == '[' && SkipWs(s[1..]) == t && t != [] && t[0] != ']'
    ensures ParseItems(t).Ok? ==>
              ParseValue(s) == Ok(JArray(ParseItems(t).value), ParseItems(t).exact, ParseItems(t).rest)
  {
  }

  lemma ObjectStep(s: string, t: string)
    requires s != [] && s[0] == '{' && SkipWs(s[1..]) == t && t != [] && t[0] != '}'
    ensures ParseMembers(t).Ok? ==>
              ParseValue(s) == Ok(JObject(Dict(ParseMembers(t).value)), ParseMembers(t).exact, ParseMembers(t).rest)
  {
  }

  lemma ItemsLast(s: string, v: JsonValue, after: string)
    requires ParseValue(s) == Ok(v, true, after)
    requires after != [] && after[0] == ']'
    ensures ParseItems(s) == Ok([v], true, after[1..])
  {
  }

  lemma ItemsNext(s: string, v: JsonValue, after: string, next: string, items: seq<JsonValue>, tail: string)
    requires ParseValue(s) == Ok(v, true, after)
    requires after == ", " + next && next != [] && !IsWs(next[0])
    requires ParseItems(next) == Ok(items, true, tail)
    ensures ParseItems(s) == Ok([v] + items, true, tail)
  {
    SeparatorSkip(next);
  }

  lemma MembersLast(s: string, m: Member, after: string)
    requires ParseMember(s) == Ok(m, true, after)
    requires after != [] && after[0] == '}'
    ensures ParseMembers(s) == Ok([m], true, after[1..])
  {
  }

  lemma MembersNext(s: string, m: Member, after: string, next: string, ms: seq<Member>, tail: string)
    requires ParseMember(s) == Ok(m, true, after)
    requires after == ", " + next && next != [] && !IsWs(next[0])
    requires ParseMembers(next) == Ok(ms, true, tail)
    ensures ParseMembers(s) == Ok([m] + ms, true, tail)
  {
    SeparatorSkip(next);
  }

  lemma MemberStep(s: string, key: string, afterKey: string, v: JsonValue, after: string)
    requires s != [] && s[0] == '"' && ParseString(s[1..]) == Ok(key, true, afterKey)
    requires afterKey != [] && afterKey[0] == ':'
    requires ParseValue(SkipWs(afterKey[1..])) == Ok(v, true, after)
    ensures ParseMember(s) == Ok(Member(key, v), true, after)
  {
  }

  lemma {:induction false} ArrayParses(v: JsonValue, rest: string)
    requires v.JArray? && WellFormed(v)
    ensures ParseValue(Dumps(v) + rest) == Ok(v, true, rest)
    decreases v, 0
  {
    var s := Dumps(v) + rest;
    var items := v.items;
    if items == [] {
      assert SkipWs(s[1..]) == "]" + rest by {
        assert s[1..] == "]" + rest;
      }
      assert ("]" + rest)[1..] == rest;
    } else {
      var inner := ItemsText(items) + "]" + rest;
      assert SkipWs(s[1..]) == inner && inner[0] != ']' by {
        assert s[1..] == inner;
        assert inner == Dumps(items[0]) + (inner[|Dumps(items[0])|..]);
        SkipNone(inner);
      }
      ItemsParse(items, rest);
      ArrayStep(s, inner);
    }
  }

  lemma {:induction false} ObjectParses(v: JsonValue, rest: string)
    requires v.JObject? && WellFormed(v)
    ensures ParseValue(Dumps(v) + rest) == Ok(v, true, rest)
    decreases v, 0
  {
    var s := Dumps(v) + rest;
    var ms := v.members;
    if ms == [] {
      assert SkipWs(s[1..]) == "}" + rest by {
        assert s[1..] == "}" + rest;
      }
      assert ("}" + rest)[1..] == rest;
    } else {
      var inner := MembersText(ms) + "}" + rest;
      assert SkipWs(s[1..]) == inner by {
        assert s[1..] == inner;
        assert inner[0] == '"';
        SkipNone(inner);
      }
      MembersParse(ms, rest);
      DictDistinct(ms);
      ObjectStep(s, inner);
    }
  }

  lemma {:induction false} ItemsParse(items: seq<JsonValue>, tail: string)
    requires items != []
    requires forall k :: 0 <= k < |items| ==> WellFormed(items[k])
    ensures ParseItems(ItemsText(items) + "]" + tail) == Ok(items, true, tail)
    decreases items, 1
  {
    if |items| == 1 {
      var after := "]" + tail;
      ItemsTextLast(items, tail);
      DumpsParses(items[0], after);
      ItemsLast(Dumps(items[0]) + after, items[0], after);
    } else {
      ItemsParse(items[1..], tail);
      ItemsCons(items, tail);
    }
  }

  /** Items after the first, behind the `", "` that separates them. */
  lemma {:induction false} ItemsCons(items: seq<JsonValue>, tail: string)
    requires |items| > 1
    requires forall k :: 0 <= k < |items| ==> WellFormed(items[k])
    requires ParseItems(ItemsText(items[1..]) + "]" + tail) == Ok(items[1..], true, tail)
    ensures ParseItems(ItemsText(items) + "]" + tail) == Ok(items, true, tail)
    decreases items, 0
  {
    var next := ItemsText(items[1..]) + "]" + tail;
    ItemsTextNext(items, tail);
    DumpsParses(items[0], ", " + next);
    ItemsNext(Dumps(items[0]) + (", " + next), items[0], ", " + next, next, items[1..], tail);
  }

  /** The text of a list's last item. */
  lemma ItemsTextLast(items: seq<JsonValue>, tail: string)
    requires |items| == 1
    ensures ItemsText(items) + "]" + tail == Dumps(items[0]) + ("]" + tail)
    ensures ("]" + tail)[1..] == tail && [items[0]] == items
  {
  }

  /** The text of a list's items: the first, `", "`, and the others. */
  lemma ItemsTextNext(items: seq<JsonValue>, tail: string)
    requires |items| > 1
    ensures var next := ItemsText(items[1..]) + "]" + tail;
      && ItemsText(items) + "]" + tail == Dumps(items[0]) + (", " + next)
      && next != [] && !IsWs(next[0])
    ensures [items[0]] + items[1..] == items
  {
    var r := ItemsText(items[1..]);
    assert r[0] == Dumps(items[1])[0];
    SeparatedText(ItemsText(items), Dumps(items[0]), r, "]", tail);
  }

  /** A first part, `", "` and the others, then a closing bracket. */
  lemma SeparatedText(whole: string, first: string, others: string, close: string, tail: string)
    requires whole == first + (", " + others)
    ensures whole + close + tail == first + (", " + (others + close + tail))
  {
  }

  /** After a `,`, the space `json.dumps` writes is skipped. */
  lemma SeparatorSkip(next: string)
    requires next != [] && !IsWs(next[0])
    ensures (", " + next)[1..] == " " + next
    ensures SkipWs((", " + next)[1..]) == next
  {
    assert (", " + next)[1..] == " " + next;
  }

  lemma {:induction false} MembersParse(ms: seq<Member>, tail: string)
    requires ms != []
    requires forall k :: 0 <= k < |ms| ==> WellFormed(ms[k].value)
    ensures ParseMembers(MembersText(ms) + "}" + tail) == Ok(ms, true, tail)
    decreases ms, 1
  {
    var m := ms[0];
    if |ms| == 1 {
      var after := "}" + tail;
      MembersTextLast(ms, tail);
      MemberParses(m, after);
      MembersLast(Quote(m.key) + ": " + Dumps(m.value) + after, m, after);
    } else {
      MembersParse(ms[1..], tail);
      MembersCons(ms, tail);
    }
  }

  /** Members after the first, behind the `", "` that separates them. */
  lemma {:induction false} MembersCons(ms: seq<Member>, tail: string)
    requires |ms| > 1
    requires forall k :: 0 <= k < |ms| ==> WellFormed(ms[k].value)
    requires ParseMembers(MembersText(ms[1..]) + "}" + tail) == Ok(ms[1..], true, tail)
    ensures ParseMembers(MembersText(ms) + "}" + tail) == Ok(ms, true, tail)
    decreases ms, 0
  {
    var m := ms[0];
    var next := MembersText(ms[1..]) + "}" + tail;
    MembersTextNext(ms, tail);
    MemberParses(m, ", " + next);
    MembersNext(Quote(m.key) + ": " + Dumps(m.value) + (", " + next), m, ", " + next, next, ms[1..], tail);
  }

  /** The text of an object's last member. */
  lemma MembersTextLast(ms: seq<Member>, tail: string)
    requires |ms| == 1
    ensures MembersText(ms) + "}" + tail == Quote(ms[0].key) + ": " + Dumps(ms[0].value) + ("}" + tail)
    ensures ("}" + tail)[1..] == tail && [ms[0]] == ms
  {
  }

  /** The text of an object's members: the first, `", "`, and the others. */
  lemma MembersTextNext(ms: seq<Member>, tail: string)
    requires |ms| > 1
    ensures var next := MembersText(ms[1..]) + "}" + tail;
      && MembersText(ms) + "}" + tail == Quote(ms[0].key) + ": " + Dumps(ms[0].value) + (", " + next)
      && next != [] && next[0] == '"'
    ensures [ms[0]] + ms[1..] == ms
  {
    var r := MembersText(ms[1..]);
    assert r[0] == '"';
    SeparatedText(MembersText(ms), Quote(ms[0].key) + ": " + Dumps(ms[0].value), r, "}", tail);
  }

  lemma {:induction false} MemberParses(m: Member, more: string)
    requires WellFormed(m.value) && Delimited(more)
    ensures ParseMember(Quote(m.key) + ": " + Dumps(m.value) + more) == Ok(m, true, more)
    decreases m, 2
  {
    var vm := Dumps(m.value) + more;
    DumpsParses(m.value, more);
    Regroup(Quote(m.key) + ": ", Dumps(m.value), more);
    Regroup(Quote(m.key), ": ", vm);
    MemberScan(m.key, ": " + vm, vm, m.value, more);
  }

  /** Text put together in two ways is the same text. */
  lemma Regroup(a: string, b: string, c: string)
    ensures a + b + c == a + (b + c)
  {
  }

  /** A key, `": "` and a text that scans as a value make a member. */
  lemma MemberScan(key: string, afterKey: string, vm: string, v: JsonValue, more: string)
    requires vm != [] && !IsWs(vm[0])
    requires afterKey == ": " + vm
    requires ParseValue(vm) == Ok(v, true, more)
    ensures ParseMember(Quote(key) + afterKey) == Ok(Member(key, v), true, more)
  {
    KeyScans(key, afterKey);
    ColonSkip(vm);
    MemberStep(Quote(key) + afterKey, key, afterKey, v, more);
  }

  /** A key reads back as itself, up to what follows its closing quote. */
  lemma KeyScans(key: string, afterKey: string)
    ensures (Quote(key) + afterKey)[0] == '"'
    ensures ParseString((Quote(key) + afterKey)[1..]) == Ok(key, true, afterKey)
  {
    assert (Quote(key) + afterKey)[1..] == EscapeAll(key) + ['"'] + afterKey;
    StringParses(key, afterKey);
  }

  /** After the `:`, the space `json.dumps` writes is skipped. */
  lemma ColonSkip(value: string)
    requires value != [] && !IsWs(value[0])
    ensures (": " + value)[0] == ':'
    ensures SkipWs((": " + value)[1..]) == value
  {
    assert (": " + value)[1..] == " " + value;
  }

  // ---------------------------------------------------------------------
  // json.loads(json.dumps(v))
  // ---------------------------------------------------------------------

  /** `json.loads(json.dumps(v)) == v` for every value without floats. */
  lemma LoadsDumps(v: JsonValue)
    requires WellFormed(v)
    ensures Loads(Dumps(v)) == Decodes(v)
  {
    var d := Dumps(v);
    SkipNone(d);
    DumpsParses(v, []);
    assert d + [] == d;
  }

  /** A string `json.loads` reads is shorter than the text it was read
    * from: the text holds at least its two quotes. */
  lemma DecodedStringShorter(t: string)
    requires Loads(t).Decodes? && Loads(t).value.JString?
    ensures |Loads(t).value.s| < |t|
  {
  }

  /** White space around a value is skipped. */
  lemma LoadsSpaced()
    ensures Loads(" true ") == Decodes(JBool(true))
  {
    assert SkipWs(" true ") == "true ";
    assert ParseValue("true ") == Ok(JBool(true), true, " ");
  }

  lemma LoadsTrue()
    ensures Loads("true") == Decodes(JBool(true))
  {
    assert ParseValue("true") == Ok(JBool(true), true, "");
  }

  /** A float is read, but is no `JsonValue`. */
  lemma LoadsFloat()
    ensures Loads("1.5") == DecodesUnmodelled
  {
    var t := "1.5";
    FloatScans(t);
    NumberStep(t);
    LoadsInexact(t, JNull);
  }

  lemma FloatScans(t: string)
    requires t == "1.5"
    ensures t[0] != '-' && ParseUnsigned(t) == Ok(JNull, false, [])
  {
    assert DigitRun(t) == 1;
    assert FractionLength(t[1..]) == 2;
  }

  lemma LoadsInexact(t: string, v: JsonValue)
    requires t != [] && !IsWs(t[0]) && ParseValue(t) == Ok(v, false, [])
    ensures Loads(t) == DecodesUnmodelled
  {
  }

  /** A comma before a `]` is refused. */
  lemma LoadsTrailingComma()
    ensures Loads("[1,]") == Raises
  {
    var t := "[1,]";
    var u := t[1..];
    assert u == IntText(1) + ",]";
    IntParses(1, ",]");
    CloseIsNoValue();
    ItemsCommaFails(u, JInt(1), ",]");
    ArrayFails(t, u);
    LoadsFails(t);
  }

  /** A `]` where a value should stand. */
  lemma CloseIsNoValue()
    ensures SkipWs("]") == "]" && ParseItems("]").Fail?
  {
    assert !Starts("]", "-Infinity");
    assert ParseValue("]").Fail?;
  }

  lemma ItemsCommaFails(s: string, v: JsonValue, after: string)
    requires ParseValue(s) == Ok(v, true, after)
    requires after != [] && after[0] == ',' && ParseItems(SkipWs(after[1..])).Fail?
    ensures ParseItems(s).Fail?
  {
  }

  lemma ArrayFails(s: string, u: string)
    requires s != [] && s[0] == '[' && s[1..] == u && u != [] && !IsWs(u[0]) && u[0] != ']'
    requires ParseItems(u).Fail?
    ensures ParseValue(s).Fail?
  {
  }

  lemma LoadsFails(t: string)
    requires t != [] && !IsWs(t[0]) && ParseValue(t).Fail?
    ensures Loads(t) == Raises
  {
  }

  lemma LoadsWhole(t: string, v: JsonValue)
    requires t != [] && !IsWs(t[0]) && ParseValue(t) == Ok(v, true, [])
    ensures Loads(t) == Decodes(v)
  {
  }

  /** Of a repeated key, the last value wins. */
  lemma LoadsRepeatedKey()
    ensures Loads("{\"a\": 1, \"a\": 2}") == Decodes(JObject([Member("a", JInt(2))]))
  {
    var t := "{\"a\": 1, \"a\": 2}";
    var pairs := [Member("a", JInt(1)), Member("a", JInt(2))];
    RepeatedKeyText(pairs, t[1..]);
    MembersParse(pairs, []);
    RepeatedKeyDict(pairs);
    ObjectWhole(t, t[1..], pairs);
    LoadsWhole(t, JObject([Member("a", JInt(2))]));
  }

  lemma ObjectWhole(s: string, u: string, pairs: seq<Member>)
    requires s != [] && s[0] == '{' && s[1..] == u && u != [] && u[0] == '"'
    requires ParseMembers(u) == Ok(pairs, true, [])
    ensures ParseValue(s) == Ok(JObject(Dict(pairs)), true, [])
  {
  }

  lemma RepeatedKeyDict(pairs: seq<Member>)
    requires pairs == [Member("a", JInt(1)), Member("a", JInt(2))]
    ensures Dict(pairs) == [Member("a", JInt(2))]
  {
    assert pairs[..1] == [Member("a", JInt(1))];
    assert Dict(pairs[..1]) == [Member("a", JInt(1))];
  }

  lemma RepeatedKeyText(pairs: seq<Member>, inner: string)
    requires pairs == [Member("a", JInt(1)), Member("a", JInt(2))]
    requires inner == "\"a\": 1, \"a\": 2}"
    ensures MembersText(pairs) + "}" + [] == inner
  {
    var first := MemberText(pairs[0], '1');
    var second := MemberText(pairs[1], '2');
    assert MembersText(pairs[1..]) == second;
    assert MembersText(pairs) == first + ", " + second;
  }

  /** The text of a member `"a": d` with a one-digit value. */
  function MemberText(m: Member, d: char): (r: string)
    requires m.key == "a" && m.value == JInt(if d == '1' then 1 else 2) && (d == '1' || d == '2')
    ensures r == Quote(m.key) + ": " + Dumps(m.value)
  {
    assert Quote("a") == "\"a\"";
    assert Dumps(m.value) == [d];
    "\"a\": " + [d]
  }
}
