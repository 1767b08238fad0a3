/**
 * The part of Python's `json.dumps` that app.py relies on: string literals
 * as the default `ensure_ascii=True` writes them. Every character outside
 * printable ASCII, and the quote and backslash, is escaped; characters above
 * U+FFFF become a UTF-16 surrogate pair of `\uXXXX` escapes with lower-case
 * hexadecimal digits. `Unescape` reads such a body back, as a JSON parser
 * does, and the two are proved inverse.
 */
module JsonText {
  import opened PyValues
  import opened Text

  predicate Printable(c: char) {
    ' ' <= c <= '~'
  }

  const HexDigits: string := "0123456789abcdef"

  /** Four lower-case hexadecimal digits of `n`. */
  function Hex4(n: nat): (r: string)
    requires n < 0x1_0000
    ensures |r| == 4 && forall i :: 0 <= i < 4 ==> Printable(r[i])
  {
    var q1 := n / 16;
    var q2 := q1 / 16;
    var q3 := q2 / 16;
    [HexDigits[q3 % 16], HexDigits[q2 % 16], HexDigits[q1 % 16], HexDigits[n % 16]]
  }

  /** The value of one hexadecimal digit, either case. */
  function HexValue(c: char): (r: Option<nat>)
    ensures r.Some? ==> r.value < 16
  {
    if '0' <= c <= '9' then Some(c as nat - '0' as nat)
    else if 'a' <= c <= 'f' then Some(c as nat - 'a' as nat + 10)
    else if 'A' <= c <= 'F' then Some(c as nat - 'A' as nat + 10)
    else None
  }

  /** The value of four hexadecimal digits. */
  function ParseHex4(s: string): (r: Option<nat>)
    requires |s| == 4
    ensures r.Some? ==> r.value < 0x1_0000
  {
    var a, b, c, d := HexValue(s[0]), HexValue(s[1]), HexValue(s[2]), HexValue(s[3]);
    if a.Some? && b.Some? && c.Some? && d.Some? then Some(a.value * 0x1000 + b.value * 0x100 + c.value * 0x10 + d.value)
    else None
  }

  lemma HexDigitValue(d: nat)
    requires d < 16
    ensures HexValue(HexDigits[d]) == Some(d)
  {
  }

  /** Reading back four written digits gives the number. */
  lemma ParseHex4Inverse(n: nat)
    requires n < 0x1_0000
    ensures ParseHex4(Hex4(n)) == Some(n)
  {
    DigitsOf(n);
    ParseDigits(n / 16 / 16 / 16 % 16, n / 16 / 16 % 16, n / 16 % 16, n % 16);
  }

  /** `n` in base 16, most significant digit first. */
  lemma DigitsOf(n: nat)
    requires n < 0x1_0000
    ensures n == (n / 16 / 16 / 16 % 16) * 0x1000 + (n / 16 / 16 % 16) * 0x100 + (n / 16 % 16) * 0x10 + n % 16
  {
    var q1 := n / 16;
    var q2 := q1 / 16;
    var q3 := q2 / 16;
    assert n == q1 * 16 + n % 16 && q1 == q2 * 16 + q1 % 16 && q2 == q3 * 16 + q2 % 16;
    assert q3 < 16;
  }

  lemma ParseDigits(a: nat, b: nat, c: nat, d: nat)
    requires a < 16 && b < 16 && c < 16 && d < 16
    ensures ParseHex4([HexDigits[a], HexDigits[b], HexDigits[c], HexDigits[d]]) == Some(a * 0x1000 + b * 0x100 + c * 0x10 + d)
  {
    HexDigitValue(a);
    HexDigitValue(b);
    HexDigitValue(c);
    HexDigitValue(d);
  }

  /** The `\uXXXX` escape of a UTF-16 code unit. */
  function Unit(u: nat): string
    requires u < 0x1_0000
  {
    "\\u" + Hex4(u)
  }

  /** How `json.dumps` writes one character inside a string literal. */
  function EscapeChar(c: char): (r: string)
    ensures forall i :: 0 <= i < |r| ==> Printable(r[i])
    ensures |r| > 0 && (r[0] == '\\' <==> !Printable(c) || c == '"' || c == '\\')
  {
    if c == '"' then "\\\""
    else if c == '\\' then "\\\\"
    else if c == '\n' then "\\n"
    else if c == '\r' then "\\r"
    else if c == '\t' then "\\t"
    else if c == '\U{8}' then "\\b"
    else if c == '\U{C}' then "\\f"
    else if Printable(c) then [c]
    else if c as int < 0x1_0000 then Unit(c as int)
    else Pair(c as int - 0x1_0000)
  }

  /** The surrogate pair for the character `0x10000 + n`: high and low ten bits. */
  function Pair(n: nat): (r: string)
    requires n < 0x10_0000
    ensures forall i :: 0 <= i < |r| ==> Printable(r[i])
  {
    Unit(0xD800 + n / 0x400) + Unit(0xDC00 + n % 0x400)
  }

  /** The body of the string literal `json.dumps` writes for `s`. */
  function Escape(s: string): (r: string)
    ensures forall i :: 0 <= i < |r| ==> Printable(r[i])
    decreases |s|
  {
    if s == [] then []
    else
      var head, tail := EscapeChar(s[0]), Escape(s[1..]);
      assert forall i :: |head| <= i < |head + tail| ==> (head + tail)[i] == tail[i - |head|];
      head + tail
  }

  /** The whole string literal. */
  function Quote(s: string): (r: string)
    ensures |r| >= 2 && r[0] == '"' && r[|r| - 1] == '"'
    ensures forall i :: 0 <= i < |r| ==> Printable(r[i])
  {
    "\"" + Escape(s) + "\""
  }

  /** The character a one-letter escape stands for. */
  function Simple(c: char): Option<char> {
    match c
    case '"' => Some('"')
    case '\\' => Some('\\')
    case '/' => Some('/')
    case 'b' => Some('\U{8}')
    case 'f' => Some('\U{C}')
    case 'n' => Some('\n')
    case 'r' => Some('\r')
    case 't' => Some('\t')
    case _ => None
  }

  predicate IsHigh(u: nat) { 0xD800 <= u < 0xDC00 }
  predicate IsLow(u: nat) { 0xDC00 <= u < 0xE000 }

  /** The code unit of a `\uXXXX` escape at the start of `t`, if there is one. */
  function UnitAt(t: string): Option<nat> {
    if |t| >= 6 && t[0] == '\\' && t[1] == 'u' then ParseHex4(t[2..6]) else None
  }

  /** A string body read back: escapes replaced by their characters; `None` when it is malformed. */
  function Unescape(t: string): Option<string>
    decreases |t|
  {
    if t == [] then Some([])
    else if t[0] != '\\' then Prepend(t[0], Unescape(t[1..]))
    else if |t| >= 2 && Simple(t[1]).Some? then Prepend(Simple(t[1]).value, Unescape(t[2..]))
    else match UnitAt(t)
      case None => None
      case Some(u) =>
        if IsLow(u) then None
        else if !IsHigh(u) then Prepend(u as char, Unescape(t[6..]))
        else match UnitAt(t[6..])
          case Some(v) =>
            if IsLow(v) then Prepend((0x1_0000 + (u - 0xD800) * 0x400 + (v - 0xDC00)) as char, Unescape(t[12..]))
            else None
          case None => None
  }

  function Prepend(c: char, r: Option<string>): Option<string> {
    match r
    case None => None
    case Some(s) => Some([c] + s)
  }

  /** One escaped character is read back as itself, whatever follows it. */
  lemma UnescapeChar(c: char, rest: string)
    ensures Unescape(EscapeChar(c) + rest) == Prepend(c, Unescape(rest))
  {
    var t := EscapeChar(c) + rest;
    if c == '"' || c == '\\' || c == '\n' || c == '\r' || c == '\t' || c == '\U{8}' || c == '\U{C}' {
      assert t[0] == '\\' && t[2..] == rest;
    } else if Printable(c) {
      assert t[1..] == rest;
    } else if c as int < 0x1_0000 {
      UnescapeUnit(c as int, rest);
    } else {
      UnescapePair(c, rest);
    }
  }

  /** A character of the Basic Multilingual Plane written as one `\uXXXX` escape. */
  lemma UnescapeUnit(u: nat, rest: string)
    requires u < 0x1_0000 && !IsHigh(u) && !IsLow(u)
    ensures Unescape(Unit(u) + rest) == Prepend(u as char, Unescape(rest))
  {
    var t := Unit(u) + rest;
    UnitAtUnit(u, rest);
    assert t[0] == '\\' && t[1] == 'u';
    UnescapeOneUnit(t, u);
  }

  lemma UnescapeOneUnit(t: string, u: nat)
    requires |t| >= 6 && t[0] == '\\' && t[1] == 'u' && UnitAt(t) == Some(u) && !IsHigh(u) && !IsLow(u)
    ensures Unescape(t) == Prepend(u as char, Unescape(t[6..]))
  {
    assert Simple(t[1]) == None;
  }

  /** A character above U+FFFF written as a surrogate pair of escapes. */
  lemma UnescapePair(c: char, rest: string)
    requires c as int >= 0x1_0000
    ensures Unescape(EscapeChar(c) + rest) == Prepend(c, Unescape(rest))
  {
    var n := c as int - 0x1_0000;
    assert EscapeChar(c) == Pair(n);
    UnescapePairUnits(n, rest);
  }

  lemma UnescapePairUnits(n: nat, rest: string)
    requires n < 0x10_0000
    ensures Unescape(Pair(n) + rest) == Prepend((0x1_0000 + n) as char, Unescape(rest))
  {
    var hi, lo := 0xD800 + n / 0x400, 0xDC00 + n % 0x400;
    SurrogateHalves(n);
    AppendAssoc(Unit(hi), Unit(lo), rest);
    TwoUnits(hi, lo, rest);
    UnescapeSurrogates(Unit(hi) + (Unit(lo) + rest), hi, lo);
  }

  /** The high and low halves of a code point above U+FFFF. */
  lemma SurrogateHalves(n: nat)
    requires n < 0x10_0000
    ensures IsHigh(0xD800 + n / 0x400) && IsLow(0xDC00 + n % 0x400)
    ensures (0xD800 + n / 0x400 - 0xD800) * 0x400 + (0xDC00 + n % 0x400 - 0xDC00) == n
  {
  }

  /** Two escapes in a row are found one after the other. */
  lemma TwoUnits(hi: nat, lo: nat, rest: string)
    requires hi < 0x1_0000 && lo < 0x1_0000
    ensures var t := Unit(hi) + (Unit(lo) + rest);
      |t| >= 12 && UnitAt(t) == Some(hi) && |t[6..]| >= 6 && UnitAt(t[6..]) == Some(lo) && t[6..][6..] == rest
  {
    UnitAtUnit(hi, Unit(lo) + rest);
    UnitAtUnit(lo, rest);
  }

  /** A `\uXXXX` escape is found at the start of what it begins. */
  lemma UnitAtUnit(u: nat, rest: string)
    requires u < 0x1_0000
    ensures |Unit(u) + rest| >= 6 && UnitAt(Unit(u) + rest) == Some(u) && (Unit(u) + rest)[6..] == rest
  {
    var t := Unit(u) + rest;
    ParseHex4Inverse(u);
    assert t[2..6] == Hex4(u);
    assert t[6..] == rest;
  }

  /** A high surrogate escape followed by a low one reads as the character they encode. */
  lemma UnescapeSurrogates(t: string, hi: nat, lo: nat)
    requires |t| >= 12 && UnitAt(t) == Some(hi) && IsHigh(hi)
    requires |t[6..]| >= 6 && UnitAt(t[6..]) == Some(lo) && IsLow(lo)
    ensures Unescape(t) == Prepend((0x1_0000 + (hi - 0xD800) * 0x400 + (lo - 0xDC00)) as char, Unescape(t[6..][6..]))
  {
    assert t[0] == '\\' && t[1] == 'u' && Simple(t[1]) == None;
    assert t[6..][6..] == t[12..];
  }

  /** Reading back what `json.dumps` wrote gives the original string. */
  lemma {:induction false} UnescapeEscape(s: string)
    ensures Unescape(Escape(s)) == Some(s)
    decreases |s|
  {
    if s != [] {
      UnescapeEscape(s[1..]);
      UnescapeChar(s[0], Escape(s[1..]));
      assert [s[0]] + s[1..] == s;
    }
  }
}
