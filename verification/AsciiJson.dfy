/** The text `json.dumps(value, ensure_ascii=True)` produces for strings and integers:
    section 7 of RFC 8259 with every character outside space..tilde escaped.  The output is
    ASCII, so its length in characters is its length in bytes. */
module AsciiJson {

  const HEX := "0123456789abcdef"

  function Hex4(n: nat): (s: string)
    requires n < 0x10000
    ensures |s| == 4
  {
    [HEX[n / 4096], HEX[n / 256 % 16], HEX[n / 16 % 16], HEX[n % 16]]
  }

  /** One character of a JSON string, escaped. Characters beyond the basic plane become a surrogate pair. */
  function Escape(c: char): string {
    if c == '\"' then "\\\""
    else if c == '\\' then "\\\\"
    else if c == '\n' then "\\n"
    else if c == '\r' then "\\r"
    else if c == '\t' then "\\t"
    else if c as int == 8 then "\\b"
    else if c as int == 12 then "\\f"
    else if 32 <= c as int < 127 then [c]
    else if c as int < 0x10000 then "\\u" + Hex4(c as int)
    else
      var v := c as int - 0x10000;
      "\\u" + Hex4(0xd800 + v / 0x400) + "\\u" + Hex4(0xdc00 + v % 0x400)
  }

  function EscapeAll(s: string): string {
    if s == "" then "" else EscapeAll(s[..|s| - 1]) + Escape(s[|s| - 1])
  }

  function Quote(s: string): string {
    "\"" + EscapeAll(s) + "\""
  }

  /** Bytes the UTF-8 encoding of a character takes. */
  function Utf8Width(c: char): nat {
    if (c as int) < 0x80 then 1
    else if (c as int) < 0x800 then 2
    else if (c as int) < 0x10000 then 3
    else 4
  }

  function Utf8Length(s: string): nat {
    if s == "" then 0 else Utf8Length(s[..|s| - 1]) + Utf8Width(s[|s| - 1])
  }

  function Digits(n: nat): (s: string)
    ensures |s| > 0
  {
    var last := [HEX[n % 10]];
    if n < 10 then last else Digits(n / 10) + last
  }

  function Power10(k: nat): nat {
    if k == 0 then 1 else 10 * Power10(k - 1)
  }

  // Lengths of the texts above, computed without building them.

  function EscapeWidth(c: char): (w: nat)
    ensures w == |Escape(c)|
    ensures 1 <= w <= 12 && w <= 6 * Utf8Width(c)
  {
    if c == '"' || c == '\\' || c == '\n' || c == '\r' || c == '\t' || c as int == 8 || c as int == 12 then 2
    else if 32 <= c as int < 127 then 1
    else if c as int < 0x10000 then 6
    else 12
  }

  function EscapedLength(s: string): nat {
    if s == "" then 0 else EscapedLength(s[..|s| - 1]) + EscapeWidth(s[|s| - 1])
  }

  function DigitCount(n: nat): (w: nat)
    ensures w > 0
  {
    if n < 10 then 1 else DigitCount(n / 10) + 1
  }

  lemma {:induction false} EscapedLengthExact(s: string)
    ensures EscapedLength(s) == |EscapeAll(s)|
  {
    if s != "" {
      EscapedLengthExact(s[..|s| - 1]);
    }
  }

  lemma {:induction false} DigitCountExact(n: nat)
    ensures DigitCount(n) == |Digits(n)|
  {
    if n >= 10 {
      DigitCountExact(n / 10);
    }
  }

  lemma {:induction false} DigitCountBound(n: nat, k: nat)
    requires 0 < k && n < Power10(k)
    ensures DigitCount(n) <= k
  {
    if n >= 10 {
      assert k > 1;
      DigitCountBound(n / 10, k - 1);
    }
  }

  /** Escaping never costs less than the characters nor more than six times the UTF-8 bytes. */
  lemma {:induction false} EscapeBound(s: string)
    ensures |s| <= EscapedLength(s) <= 6 * Utf8Length(s)
  {
    if s != "" {
      EscapeBound(s[..|s| - 1]);
    }
  }

  /** A longer prefix is dearer by at least one byte a character. */
  lemma {:induction false} EscapePrefix(s: string, i: nat, j: nat)
    requires i <= j <= |s|
    ensures EscapedLength(s[..i]) + (j - i) <= EscapedLength(s[..j])
  {
    if i < j {
      EscapePrefix(s, i, j - 1);
      var longer := s[..j];
      assert longer[..|longer| - 1] == s[..j - 1] && longer[|longer| - 1] == s[j - 1];
      assert EscapedLength(longer) == EscapedLength(s[..j - 1]) + EscapeWidth(s[j - 1]);
    }
  }
}
