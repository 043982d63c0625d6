/** String literals the build script writes into generated Rust source (build.rs). */
module RustLiteral {

  import opened Common

  const QUOTE: char := '"'
  const SLASH: char := '\\'

  predicate IsControl(c: char) {
    c as int < 0x20 || c as int == 0x7F
  }

  function HexDigit(d: nat): (c: char)
    requires d < 16
    ensures HexValue(c) == Some(d)
  {
    if d < 10 then '0' + d as char else 'a' + (d - 10) as char
  }

  function HexValue(c: char): Option<nat> {
    if '0' <= c <= '9' then Some(c as int - '0' as int)
    else if 'a' <= c <= 'f' then Some(c as int - 'a' as int + 10)
    else if 'A' <= c <= 'F' then Some(c as int - 'A' as int + 10)
    else None
  }

  /** `{:x}`. */
  function Hex(n: nat): (s: string)
    ensures s != []
  {
    if n < 16 then [HexDigit(n)] else Hex(n / 16) + [HexDigit(n % 16)]
  }

  function EscapeChar(c: char): string {
    if c == QUOTE then [SLASH, QUOTE]
    else if c == SLASH then [SLASH, SLASH]
    else if c == '\n' then [SLASH, 'n']
    else if c == '\r' then [SLASH, 'r']
    else if c == '\t' then [SLASH, 't']
    else if IsControl(c) then [SLASH, 'u', '{'] + (Hex(c as int) + ['}'])
    else [c]
  }

  function EscapeAll(s: string): string {
    if s == [] then [] else EscapeChar(s[0]) + EscapeAll(s[1..])
  }

  /** What one character becomes. */
  method PushEscaped(before: string, c: char) returns (out: string)
    ensures out == before + EscapeChar(c)
  {
    if c == QUOTE { out := before + [SLASH, QUOTE]; }
    else if c == SLASH { out := before + [SLASH, SLASH]; }
    else if c == '\n' { out := before + [SLASH, 'n']; }
    else if c == '\r' { out := before + [SLASH, 'r']; }
    else if c == '\t' { out := before + [SLASH, 't']; }
    else if IsControl(c) { out := before + ([SLASH, 'u', '{'] + (Hex(c as int) + ['}'])); }
    else { out := before + [c]; }
  }

  lemma Associates(a: string, b: string, c: string)
    ensures a + b + c == a + (b + c)
  {
  }

  /** `escape_rust_string`. */
  method EscapeRustString(value: string) returns (out: string)
    ensures out == [QUOTE] + EscapeAll(value) + [QUOTE]
    ensures ReadLiteral(out) == Some(value) && IsPrintable(out)
  {
    out := PushAll([QUOTE], value);
    out := out + [QUOTE];
    LiteralReadsBack(value);
    EscapedIsPrintable(value);
  }

  method PushAll(before: string, value: string) returns (out: string)
    ensures out == before + EscapeAll(value)
  {
    out := before;
    var rest := value;
    while rest != []
      invariant out + EscapeAll(rest) == before + EscapeAll(value)
      decreases |rest|
    {
      Associates(out, EscapeChar(rest[0]), EscapeAll(rest[1..]));
      out := PushEscaped(out, rest[0]);
      rest := rest[1..];
    }
    assert out + [] == out;
  }

  /** Quotes, backslashes and ASCII control characters are escaped, and nothing else is. */
  lemma OnlyTheseAreEscaped(c: char)
    ensures EscapeChar(c) == [c] <==> c != '"' && c != '\\' && 32 <= c as int && c as int != 127
  {
  }

  predicate IsPrintable(s: string) {
    forall i :: 0 <= i < |s| ==> 32 <= s[i] as int && s[i] as int != 127
  }

  lemma {:induction false} HexIsPrintable(n: nat)
    ensures IsPrintable(Hex(n))
  {
    if n >= 16 { HexIsPrintable(n / 16); }
  }

  /** So the literal has no control character in it, whatever the text. */
  lemma {:induction false} EscapedIsPrintable(s: string)
    ensures IsPrintable(EscapeAll(s))
  {
    if s != [] {
      HexIsPrintable(s[0] as int);
      EscapedIsPrintable(s[1..]);
    }
  }

  // ---- How Rust reads a literal ----

  function IsScalar(n: nat): bool {
    n < 0xD800 || 0xE000 <= n < 0x11_0000
  }

  /** Hexadecimal digits up to a closing brace, at most six. */
  function ReadBraced(s: string, value: nat, digits: nat): Option<(nat, string)> {
    if s == [] then None
    else if s[0] == '}' then (if 1 <= digits <= 6 then Some((value, s[1..])) else None)
    else match HexValue(s[0])
      case None => None
      case Some(d) => ReadBraced(s[1..], 16 * value + d, digits + 1)
  }

  lemma {:induction false} BracedIsShorter(s: string, value: nat, digits: nat)
    ensures ReadBraced(s, value, digits).Some? ==> |ReadBraced(s, value, digits).value.1| < |s|
  {
    if s != [] && s[0] != '}' && HexValue(s[0]).Some? { BracedIsShorter(s[1..], 16 * value + HexValue(s[0]).value, digits + 1); }
  }

  /** The text up to the closing quote, and what follows it. */
  function ReadBody(s: string): Option<(string, string)>
    decreases |s|
  {
    if s == [] then None
    else if s[0] == QUOTE then Some(([], s[1..]))
    else if s[0] == SLASH then
      if |s| == 1 then None
      else match Simple(s[1])
        case Some(c) => Prefixed(c, ReadBody(s[2..]))
        case None =>
          if s[1] == 'u' && |s| > 2 && s[2] == '{' then
            BracedIsShorter(s[3..], 0, 0);
            match ReadBraced(s[3..], 0, 0)
            case None => None
            case Some((n, rest)) => if IsScalar(n) then Prefixed(n as char, ReadBody(rest)) else None
          else None
    else if s[0] == '\r' then None
    else Prefixed(s[0], ReadBody(s[1..]))
  }

  function Simple(c: char): Option<char> {
    if c == QUOTE || c == SLASH then Some(c)
    else if c == 'n' then Some('\n')
    else if c == 'r' then Some('\r')
    else if c == 't' then Some('\t')
    else None
  }

  function Prefixed(c: char, r: Option<(string, string)>): Option<(string, string)> {
    match r case None => None case Some((s, rest)) => Some(([c] + s, rest))
  }

  function ReadLiteral(s: string): Option<string> {
    if s == [] || s[0] != QUOTE then None
    else match ReadBody(s[1..])
      case Some((text, rest)) => if rest == [] then Some(text) else None
      case None => None
  }

  lemma ReadDigit(d: nat, rest: string, value: nat, digits: nat)
    requires d < 16
    ensures ReadBraced([HexDigit(d)] + rest, value, digits) == ReadBraced(rest, 16 * value + d, digits + 1)
  {
    assert ([HexDigit(d)] + rest)[1..] == rest;
    assert HexDigit(d) != '}';
  }

  /** Control characters take one or two hexadecimal digits. */
  lemma ReadHex(n: nat, rest: string)
    requires n < 0x80
    ensures ReadBraced(Hex(n) + ['}'] + rest, 0, 0) == Some((n, rest))
  {
    var tail := ['}'] + rest;
    if n < 16 {
      assert Hex(n) + ['}'] + rest == [HexDigit(n)] + tail;
      ReadDigit(n, tail, 0, 0);
    } else {
      assert Hex(n / 16) == [HexDigit(n / 16)];
      assert Hex(n) + ['}'] + rest == [HexDigit(n / 16)] + ([HexDigit(n % 16)] + tail);
      ReadDigit(n / 16, [HexDigit(n % 16)] + tail, 0, 0);
      ReadDigit(n % 16, tail, n / 16, 1);
    }
  }

  lemma ReadEscapedChar(c: char, rest: string)
    ensures ReadBody(EscapeChar(c) + rest) == Prefixed(c, ReadBody(rest))
  {
    var s := EscapeChar(c) + rest;
    if Simple(c) == Some(c) || c in {'\n', '\r', '\t'} {
      assert s[2..] == rest;
    } else if IsControl(c) {
      assert s[3..] == Hex(c as int) + ['}'] + rest;
      ReadHex(c as int, rest);
    } else {
      assert s[1..] == rest;
    }
  }

  lemma {:induction false} ReadEscaped(s: string, rest: string)
    ensures ReadBody(EscapeAll(s) + ([QUOTE] + rest)) == Some((s, rest))
  {
    if s == [] {
      assert [] + ([QUOTE] + rest) == [QUOTE] + rest;
      assert ([QUOTE] + rest)[1..] == rest;
    } else {
      var tail := EscapeAll(s[1..]) + ([QUOTE] + rest);
      assert EscapeAll(s) + ([QUOTE] + rest) == EscapeChar(s[0]) + tail;
      ReadEscapedChar(s[0], tail);
      ReadEscaped(s[1..], rest);
      assert s == [s[0]] + s[1..];
    }
  }

  /** Rust reads an emitted literal back as the text it was made from. */
  lemma LiteralReadsBack(s: string)
    ensures ReadLiteral([QUOTE] + EscapeAll(s) + [QUOTE]) == Some(s)
  {
    var out := [QUOTE] + EscapeAll(s) + [QUOTE];
    assert out[1..] == EscapeAll(s) + ([QUOTE] + []);
    ReadEscaped(s, []);
  }
}
