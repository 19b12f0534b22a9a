/** The two pieces of JavaScript text formatting the hook relies on when it
    writes the initializer line of the new app.js: `Number.prototype.toString`
    for a port number and `JSON.stringify` for a string and for the
    `{ fPort, ePort, host }` options object. Each formatter has a parser
    beside it, and the lemmas prove the parser recovers what was formatted. */
module Json {
  import opened Wrappers

  // ---------------------------------------------------------------------
  // Decimal numbers
  // ---------------------------------------------------------------------

  predicate IsDigit(c: char) {
    '0' <= c <= '9'
  }

  predicate AllDigits(s: string) {
    forall i :: 0 <= i < |s| ==> IsDigit(s[i])
  }

  function DigitValue(c: char): nat
    requires IsDigit(c)
  {
    c as int - '0' as int
  }

  function DigitChar(d: nat): (c: char)
    requires d < 10
    ensures IsDigit(c) && DigitValue(c) == d
  {
    (d + '0' as int) as char
  }

  /** How JavaScript prints a non-negative integer below 10^21: its decimal
      digits, with no leading zero. */
  function NatToDecimal(n: nat): (s: string)
    ensures |s| > 0 && AllDigits(s)
    ensures s[0] == '0' ==> n == 0
  {
    if n < 10 then [DigitChar(n)] else NatToDecimal(n / 10) + [DigitChar(n % 10)]
  }

  /** The number a string of decimal digits denotes. */
  function DecimalValue(s: string): nat
    requires AllDigits(s)
  {
    if s == [] then 0 else DecimalValue(s[..|s| - 1]) * 10 + DigitValue(s[|s| - 1])
  }

  lemma {:induction false} DecimalRoundTrip(n: nat)
    ensures DecimalValue(NatToDecimal(n)) == n
  {
    var t := NatToDecimal(n);
    if n >= 10 {
      assert t[..|t| - 1] == NatToDecimal(n / 10);
      DecimalRoundTrip(n / 10);
    } else {
      assert t[..|t| - 1] == [];
    }
  }

  /** The length of the run of digits at the start of `s`. */
  function DigitSpan(s: string): (k: nat)
    ensures k <= |s|
    ensures forall i :: 0 <= i < k ==> IsDigit(s[i])
  {
    if s == [] || !IsDigit(s[0]) then 0 else 1 + DigitSpan(s[1..])
  }

  lemma {:induction false} DigitSpanOfDigits(d: string, rest: string)
    requires AllDigits(d)
    requires rest == [] || !IsDigit(rest[0])
    ensures DigitSpan(d + rest) == |d|
  {
    if d == [] {
      assert d + rest == rest;
    } else {
      assert (d + rest)[1..] == d[1..] + rest;
      DigitSpanOfDigits(d[1..], rest);
    }
  }

  /** Reads the longest run of digits at the start of `s` as a number and
      returns it with the text after it; `None` when `s` starts with no digit. */
  function ParseNat(s: string): Option<(nat, string)> {
    var k := DigitSpan(s);
    if k == 0 then None
    else
      assert AllDigits(s[..k]);
      Some((DecimalValue(s[..k]), s[k..]))
  }

  lemma ParseNatRoundTrip(n: nat, rest: string)
    requires rest == [] || !IsDigit(rest[0])
    ensures ParseNat(NatToDecimal(n) + rest) == Some((n, rest))
  {
    var d := NatToDecimal(n);
    var s := d + rest;
    DigitSpanOfDigits(d, rest);
    assert s[..|d|] == d;
    assert s[|d|..] == rest;
    DecimalRoundTrip(n);
  }

  // ---------------------------------------------------------------------
  // JSON strings
  // ---------------------------------------------------------------------

  function HexDigit(d: nat): char
    requires d < 16
  {
    if d < 10 then DigitChar(d) else (d - 10 + 'a' as int) as char
  }

  function HexValue(c: char): (r: Option<nat>)
    ensures r.Some? ==> r.value < 16
  {
    if '0' <= c <= '9' then Some(c as int - '0' as int)
    else if 'a' <= c <= 'f' then Some(c as int - 'a' as int + 10)
    else if 'A' <= c <= 'F' then Some(c as int - 'A' as int + 10)
    else None
  }

  /** How `JSON.stringify` writes one character inside a string literal
      (the QuoteJSONString operation of ECMA-262): the quote, the backslash
      and the control characters are escaped, lower-case hex in `\u00XX`. */
  function EscapeChar(c: char): string {
    if c == '"' then "\\\""
    else if c == '\\' then "\\\\"
    else if c == 8 as char then "\\b"
    else if c == 12 as char then "\\f"
    else if c == '\n' then "\\n"
    else if c == '\r' then "\\r"
    else if c == '\t' then "\\t"
    else if (c as int) < 0x20 then "\\u00" + [HexDigit(c as int / 16), HexDigit(c as int % 16)]
    else [c]
  }

  function EscapeBody(s: string): string {
    if s == [] then "" else EscapeChar(s[0]) + EscapeBody(s[1..])
  }

  /** `JSON.stringify` of a string. */
  function Quote(s: string): string {
    "\"" + EscapeBody(s) + "\""
  }

  /** Decodes one escape sequence; `s` starts just after the backslash. The
      result is the character and how many characters of `s` it used. */
  function UnescapeSequence(s: string): (r: Option<(char, nat)>)
    ensures r.Some? ==> 1 <= r.value.1 <= |s|
  {
    if s == [] then None
    else if s[0] == '"' then Some(('"', 1))
    else if s[0] == '\\' then Some(('\\', 1))
    else if s[0] == '/' then Some(('/', 1))
    else if s[0] == 'b' then Some((8 as char, 1))
    else if s[0] == 'f' then Some((12 as char, 1))
    else if s[0] == 'n' then Some(('\n', 1))
    else if s[0] == 'r' then Some(('\r', 1))
    else if s[0] == 't' then Some(('\t', 1))
    else if s[0] == 'u' && |s| >= 5 then
      var a :- HexValue(s[1]);
      var b :- HexValue(s[2]);
      var c :- HexValue(s[3]);
      var d :- HexValue(s[4]);
      var v := ((a * 16 + b) * 16 + c) * 16 + d;
      if 0xD800 <= v < 0xE000 then None else Some((v as char, 5))
    else None
  }

  /** Reads the characters of a JSON string literal up to its closing quote;
      `s` starts just after the opening quote. The result is the decoded
      text and what follows the closing quote. */
  function ParseStringBody(s: string): Option<(string, string)>
    decreases |s|
  {
    if s == [] then None
    else if s[0] == '"' then Some(("", s[1..]))
    else if s[0] == '\\' then
      var (c, n) :- UnescapeSequence(s[1..]);
      var (v, rest) :- ParseStringBody(s[1 + n..]);
      Some(([c] + v, rest))
    else if (s[0] as int) < 0x20 then None
    else
      var (v, rest) :- ParseStringBody(s[1..]);
      Some(([s[0]] + v, rest))
  }

  /** Reads a JSON string literal at the start of `s`. */
  function ParseString(s: string): Option<(string, string)> {
    if s != [] && s[0] == '"' then ParseStringBody(s[1..]) else None
  }

  function Prepend(c: char, r: Option<(string, string)>): Option<(string, string)> {
    match r
    case None => None
    case Some((v, rest)) => Some(([c] + v, rest))
  }

  /** The `\u00XX` escape of a control character decodes back to it. */
  lemma UnicodeEscapeParses(v: nat, tail: string)
    requires v < 0x20
    ensures UnescapeSequence("u00" + [HexDigit(v / 16), HexDigit(v % 16)] + tail) == Some((v as char, 5))
  {
    var t := "u00" + [HexDigit(v / 16), HexDigit(v % 16)] + tail;
    assert t[0] == 'u' && t[1] == '0' && t[2] == '0';
    assert t[3] == HexDigit(v / 16) && t[4] == HexDigit(v % 16);
    assert HexValue(HexDigit(v / 16)) == Some(v / 16);
    assert HexValue(HexDigit(v % 16)) == Some(v % 16);
  }

  /** An escape `esc`, a backslash then a sequence `body` that decodes to `c`. */
  lemma BackslashParses(c: char, esc: string, body: string, tail: string)
    requires esc == "\\" + body
    requires UnescapeSequence(body + tail) == Some((c, |body|))
    ensures ParseStringBody(esc + tail) == Prepend(c, ParseStringBody(tail))
  {
    var s := esc + tail;
    assert s[1..] == body + tail;
    assert s[1 + |body|..] == tail;
  }

  /** A character written as itself. */
  lemma PlainCharParses(c: char, tail: string)
    requires c != '"' && c != '\\' && (c as int) >= 0x20
    ensures ParseStringBody([c] + tail) == Prepend(c, ParseStringBody(tail))
  {
    assert ([c] + tail)[1..] == tail;
  }

  lemma EscapeCharParses(c: char, tail: string)
    ensures ParseStringBody(EscapeChar(c) + tail) == Prepend(c, ParseStringBody(tail))
  {
    if c == '"' {
      BackslashParses(c, EscapeChar(c), "\"", tail);
    } else if c == '\\' {
      BackslashParses(c, EscapeChar(c), "\\", tail);
    } else if c == 8 as char {
      BackslashParses(c, EscapeChar(c), "b", tail);
    } else if c == 12 as char {
      BackslashParses(c, EscapeChar(c), "f", tail);
    } else if c == '\n' {
      BackslashParses(c, EscapeChar(c), "n", tail);
    } else if c == '\r' {
      BackslashParses(c, EscapeChar(c), "r", tail);
    } else if c == '\t' {
      BackslashParses(c, EscapeChar(c), "t", tail);
    } else if (c as int) < 0x20 {
      var v := c as int;
      var body := "u00" + [HexDigit(v / 16), HexDigit(v % 16)];
      assert EscapeChar(c) == "\\" + body;
      assert body + tail == "u00" + [HexDigit(v / 16), HexDigit(v % 16)] + tail;
      UnicodeEscapeParses(v, tail);
      BackslashParses(c, EscapeChar(c), body, tail);
    } else {
      PlainCharParses(c, tail);
    }
  }

  lemma {:induction false} EscapeBodyParses(s: string, rest: string)
    ensures ParseStringBody(EscapeBody(s) + "\"" + rest) == Some((s, rest))
  {
    if s == [] {
      assert EscapeBody(s) + "\"" + rest == "\"" + rest;
    } else {
      var tail := EscapeBody(s[1..]) + "\"" + rest;
      assert EscapeBody(s) + "\"" + rest == EscapeChar(s[0]) + tail;
      EscapeCharParses(s[0], tail);
      EscapeBodyParses(s[1..], rest);
      assert [s[0]] + s[1..] == s;
    }
  }

  /** Parsing reverses `JSON.stringify` of a string, whatever follows it. */
  lemma QuoteRoundTrip(s: string, rest: string)
    ensures ParseString(Quote(s) + rest) == Some((s, rest))
  {
    assert (Quote(s) + rest)[1..] == EscapeBody(s) + "\"" + rest;
    EscapeBodyParses(s, rest);
  }

  // ---------------------------------------------------------------------
  // The options object of the generated initializer
  // ---------------------------------------------------------------------

  const FPORT_KEY := "{\"fPort\":"
  const EPORT_KEY := ",\"ePort\":"
  const HOST_KEY := ",\"host\":"

  /** `JSON.stringify({ fPort: fPort, ePort: ePort, host: host })`: the keys in
      the order the object literal creates them. */
  function RunOptionsJson(fPort: nat, ePort: nat, host: string): string {
    FPORT_KEY + NatToDecimal(fPort) + EPORT_KEY + NatToDecimal(ePort) + HOST_KEY + Quote(host) + "}"
  }

  /** The text after the prefix `p`, when `s` starts with it. */
  function ExpectPrefix(p: string, s: string): Option<string> {
    if |p| <= |s| && s[..|p|] == p then Some(s[|p|..]) else None
  }

  lemma ExpectPrefixOf(p: string, x: string)
    ensures ExpectPrefix(p, p + x) == Some(x)
  {
    assert (p + x)[..|p|] == p;
    assert (p + x)[|p|..] == x;
  }

  /** Reads back an options object of the shape `RunOptionsJson` writes. */
  function ParseRunOptions(s: string): Option<(nat, nat, string)> {
    var s1 :- ExpectPrefix(FPORT_KEY, s);
    var (fPort, s2) :- ParseNat(s1);
    var (ePort, host) :- ParsePortAndHost(s2);
    Some((fPort, ePort, host))
  }

  /** The part of the options object after `fPort`'s value. */
  function ParsePortAndHost(s: string): Option<(nat, string)> {
    var s3 :- ExpectPrefix(EPORT_KEY, s);
    var (ePort, s4) :- ParseNat(s3);
    var s5 :- ExpectPrefix(HOST_KEY, s4);
    var (host, s6) :- ParseString(s5);
    if s6 == "}" then Some((ePort, host)) else None
  }

  lemma PortAndHostRoundTrip(ePort: nat, host: string)
    ensures ParsePortAndHost(EPORT_KEY + NatToDecimal(ePort) + HOST_KEY + Quote(host) + "}")
         == Some((ePort, host))
  {
    var e, q := NatToDecimal(ePort), Quote(host);
    var s5 := q + "}";
    var s4 := HOST_KEY + s5;
    var s3 := e + s4;
    assert EPORT_KEY + e + HOST_KEY + q + "}" == EPORT_KEY + s3;
    ExpectPrefixOf(EPORT_KEY, s3);
    ParseNatRoundTrip(ePort, s4);
    ExpectPrefixOf(HOST_KEY, s5);
    QuoteRoundTrip(host, "}");
  }

  lemma RunOptionsRoundTrip(fPort: nat, ePort: nat, host: string)
    ensures ParseRunOptions(RunOptionsJson(fPort, ePort, host)) == Some((fPort, ePort, host))
  {
    var f := NatToDecimal(fPort);
    var s2 := EPORT_KEY + NatToDecimal(ePort) + HOST_KEY + Quote(host) + "}";
    var s1 := f + s2;
    assert RunOptionsJson(fPort, ePort, host) == FPORT_KEY + s1;
    ExpectPrefixOf(FPORT_KEY, s1);
    ParseNatRoundTrip(fPort, s2);
    PortAndHostRoundTrip(ePort, host);
  }
}
