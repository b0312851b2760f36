/** The string primitives of Go's `strings`/`strconv` packages and of JavaScript's
    `String.prototype` that the core relies on, over `string` = `seq<char>`. */
module Text {
  import opened Wrappers

  // ---------------------------------------------------------------- whitespace

  /** Characters that both Go's `unicode.IsSpace` and JavaScript's `trim()` treat as white space. */
  predicate IsCommonSpace(c: char)
  {
    || c == ' ' || c == '\t' || c == '\n' || c == '\U{000B}' || c == '\U{000C}' || c == '\r'
    || c == '\U{00A0}' || c == '\U{1680}' || ('\U{2000}' <= c <= '\U{200A}')
    || c == '\U{2028}' || c == '\U{2029}' || c == '\U{202F}' || c == '\U{205F}' || c == '\U{3000}'
  }

  /** Go's `unicode.IsSpace`, the set `strings.TrimSpace` removes: the common set plus NEL (U+0085). */
  predicate IsGoSpace(c: char)
  {
    IsCommonSpace(c) || c == '\U{0085}'
  }

  /** The set JavaScript's `String.prototype.trim` removes: the common set plus the BOM (U+FEFF). */
  predicate IsJsSpace(c: char)
  {
    IsCommonSpace(c) || c == '\U{FEFF}'
  }

  /** Drops the leading characters satisfying `drop`: what is left is a suffix that does not
      start with one (`TrimLeftDropsOnly` says that only such characters went). */
  function TrimLeft(s: string, drop: char -> bool): (r: string)
    ensures |r| <= |s| && r == s[|s| - |r|..]
    ensures r == [] || !drop(r[0])
  {
    if |s| > 0 && drop(s[0]) then TrimLeft(s[1..], drop) else s
  }

  lemma {:induction false} TrimLeftDropsOnly(s: string, drop: char -> bool)
    ensures forall i :: 0 <= i < |s| - |TrimLeft(s, drop)| ==> drop(s[i])
  {
    if |s| > 0 && drop(s[0]) {
      TrimLeftDropsOnly(s[1..], drop);
      assert forall i :: 1 <= i < |s| ==> s[i] == s[1..][i - 1];
    }
  }

  /** Drops the trailing characters satisfying `drop`: what is left is a prefix that does not
      end with one (`TrimRightDropsOnly` says that only such characters went). */
  function TrimRight(s: string, drop: char -> bool): (r: string)
    ensures |r| <= |s| && r == s[..|r|]
    ensures r == [] || !drop(r[|r| - 1])
  {
    if |s| > 0 && drop(s[|s| - 1]) then TrimRight(s[..|s| - 1], drop) else s
  }

  lemma {:induction false} TrimRightDropsOnly(s: string, drop: char -> bool)
    ensures forall i :: |TrimRight(s, drop)| <= i < |s| ==> drop(s[i])
  {
    if |s| > 0 && drop(s[|s| - 1]) {
      TrimRightDropsOnly(s[..|s| - 1], drop);
    }
  }

  function Trim(s: string, drop: char -> bool): string
  {
    TrimRight(TrimLeft(s, drop), drop)
  }

  /** Go's `strings.TrimSpace`. */
  function TrimSpace(s: string): string
  {
    Trim(s, IsGoSpace)
  }

  /** A string that starts and ends with no character of `drop` is its own trim. */
  lemma TrimOfTrimmed(s: string, drop: char -> bool)
    requires s == [] || (!drop(s[0]) && !drop(s[|s| - 1]))
    ensures Trim(s, drop) == s
  {
  }

  // ---------------------------------------------------------------- case

  /** Lower-casing of one character, on the ASCII letters. */
  function LowerChar(c: char): char
  {
    if 'A' <= c <= 'Z' then (c as int + 32) as char else c
  }

  /** Go's `strings.ToLower`, restricted to ASCII letters (it never changes the length). */
  function ToLower(s: string): (r: string)
    ensures |r| == |s|
    ensures forall i :: 0 <= i < |s| ==> r[i] == LowerChar(s[i])
  {
    seq(|s|, i requires 0 <= i < |s| => LowerChar(s[i]))
  }

  // ---------------------------------------------------------------- affixes and search

  predicate HasSuffix(s: string, suffix: string)
  {
    |suffix| <= |s| && s[|s| - |suffix|..] == suffix
  }

  /** Go's `strings.TrimPrefix`. */
  function TrimPrefix(s: string, prefix: string): (r: string)
    ensures if prefix <= s then prefix + r == s else r == s
  {
    if prefix <= s then s[|prefix|..] else s
  }

  /** The values with the empty strings dropped, in order: the server's `if v != ""` append
      loop and the client's `.filter((item) => item !== "")`. */
  function NonEmpty(values: seq<string>): (r: seq<string>)
    ensures |r| <= |values|
    ensures forall v :: v in r ==> v != "" && v in values
    ensures forall v :: v in values && v != "" ==> v in r
  {
    if |values| == 0 then []
    else NonEmpty(values[..|values| - 1]) + (if values[|values| - 1] == "" then [] else [values[|values| - 1]])
  }

  /** Values that are all non-empty are kept whole. */
  lemma {:induction false} NonEmptyKeeps(values: seq<string>)
    requires forall i :: 0 <= i < |values| ==> values[i] != ""
    ensures NonEmpty(values) == values
  {
    if |values| > 0 {
      NonEmptyKeeps(values[..|values| - 1]);
    }
  }

  /** Go's `strings.TrimSuffix`. */
  function TrimSuffix(s: string, suffix: string): (r: string)
    ensures if HasSuffix(s, suffix) then r + suffix == s else r == s
  {
    if HasSuffix(s, suffix) then s[..|s| - |suffix|] else s
  }

  /** Go's `strings.LastIndex` and JavaScript's `lastIndexOf` for a one-character needle. */
  function LastIndexOf(s: string, c: char): (r: int)
    ensures -1 <= r < |s|
    ensures r == -1 <==> c !in s
    ensures 0 <= r ==> s[r] == c && c !in s[r + 1..]
  {
    if |s| == 0 then -1
    else if s[|s| - 1] == c then |s| - 1
    else
      var r := LastIndexOf(s[..|s| - 1], c);
      LastIndexOfStep(s, c, r);
      r
  }

  /** A last character other than `c` changes neither absence nor the last position of `c`. */
  lemma LastIndexOfStep(s: string, c: char, r: int)
    requires |s| > 0 && s[|s| - 1] != c && -1 <= r < |s| - 1
    requires r == -1 <==> c !in s[..|s| - 1]
    requires 0 <= r ==> c !in s[..|s| - 1][r + 1..]
    ensures r == -1 <==> c !in s
    ensures 0 <= r ==> c !in s[r + 1..]
  {
    var init := s[..|s| - 1];
    assert s == init + [s[|s| - 1]];
    if r >= 0 {
      assert s[r + 1..] == init[r + 1..] + [s[|s| - 1]];
    }
  }

  /** How many times `c` occurs in `s`. */
  function Count(s: string, c: char): nat
  {
    if |s| == 0 then 0 else Count(s[..|s| - 1], c) + (if s[|s| - 1] == c then 1 else 0)
  }

  lemma {:induction false} CountConcat(a: string, b: string, c: char)
    ensures Count(a + b, c) == Count(a, c) + Count(b, c)
  {
    if |b| > 0 {
      assert (a + b)[..|a + b| - 1] == a + b[..|b| - 1];
      CountConcat(a, b[..|b| - 1], c);
    } else {
      assert a + b == a;
    }
  }

  lemma CountAbsent(s: string, c: char)
    requires c !in s
    ensures Count(s, c) == 0
  {
    if |s| > 0 {
      assert c !in s[..|s| - 1];
      CountAbsent(s[..|s| - 1], c);
    }
  }

  /** squirrel's `Placeholders`: `n` question marks separated by commas. */
  function Placeholders(n: nat): (r: string)
    ensures Count(r, '?') == n
    ensures n == 0 <==> r == ""
  {
    if n == 0 then ""
    else if n == 1 then "?"
    else
      var r := Placeholders(n - 1) + ",?";
      CountConcat(Placeholders(n - 1), ",?", '?');
      r
  }

  // ---------------------------------------------------------------- decimal integers

  const MinInt64: int := -0x8000_0000_0000_0000
  const MaxInt64: int := 0x7FFF_FFFF_FFFF_FFFF

  predicate IsDigit(c: char)
  {
    '0' <= c <= '9'
  }

  /** Every character is a decimal digit (read from the end, as `DigitsValue` reads it). */
  predicate AllDigits(s: string)
  {
    |s| == 0 || (AllDigits(s[..|s| - 1]) && IsDigit(s[|s| - 1]))
  }

  /** The value of a string of decimal digits. */
  function DigitsValue(s: string): nat
    requires AllDigits(s)
  {
    if |s| == 0 then 0 else DigitsValue(s[..|s| - 1]) * 10 + (s[|s| - 1] as int - '0' as int)
  }

  /** Go's `strconv.ParseInt(s, 10, 64)` (and `strconv.Atoi` on a 64-bit platform):
      an optional sign, then one or more decimal digits, in the int64 range. */
  function ParseInt64(s: string): (r: Option<int>)
    ensures r.Some? ==> MinInt64 <= r.value <= MaxInt64
    ensures r.Some? ==> |s| > 0
  {
    var signed := |s| > 0 && (s[0] == '-' || s[0] == '+');
    var digits := if signed then s[1..] else s;
    if |digits| == 0 || !AllDigits(digits) then None
    else
      var v: int := if |s| > 0 && s[0] == '-' then -(DigitsValue(digits) as int) else DigitsValue(digits);
      if MinInt64 <= v <= MaxInt64 then Some(v) else None
  }

  function DigitChar(d: nat): (c: char)
    requires d < 10
    ensures IsDigit(c)
  {
    ('0' as int + d) as char
  }

  /** Decimal form of a natural number, no leading zeros. */
  function NatToDecimal(n: nat): (r: string)
    ensures |r| > 0 && AllDigits(r) && IsDigit(r[0])
  {
    if n < 10 then
      var r := [DigitChar(n)];
      assert r[..0] == [];
      r
    else
      var r := NatToDecimal(n / 10) + [DigitChar(n % 10)];
      assert r[..|r| - 1] == NatToDecimal(n / 10);
      r
  }

  /** Decimal form of an integer, as Go's `fmt.Sprint` and `strconv.Itoa` print it. */
  function IntToDecimal(i: int): string
  {
    if i < 0 then "-" + NatToDecimal(-i) else NatToDecimal(i)
  }

  lemma {:induction false} NatToDecimalValue(n: nat)
    ensures DigitsValue(NatToDecimal(n)) == n
  {
    if n >= 10 {
      var s := NatToDecimal(n);
      assert s[..|s| - 1] == NatToDecimal(n / 10);
      NatToDecimalValue(n / 10);
    }
  }

  /** Parsing undoes printing on the whole int64 range. */
  lemma ParseIntToDecimal(i: int)
    requires MinInt64 <= i <= MaxInt64
    ensures ParseInt64(IntToDecimal(i)) == Some(i)
  {
    if i < 0 {
      ParseNegativeDecimal(-i);
    } else {
      ParseNatDecimal(i);
    }
  }

  lemma ParseNatDecimal(n: nat)
    requires n <= MaxInt64
    ensures ParseInt64(NatToDecimal(n)) == Some(n)
  {
    var s := NatToDecimal(n);
    assert s[0] != '-' && s[0] != '+';
    NatToDecimalValue(n);
  }

  lemma ParseNegativeDecimal(n: nat)
    requires 0 < n <= -MinInt64
    ensures ParseInt64("-" + NatToDecimal(n)) == Some(-(n as int))
  {
    var s := "-" + NatToDecimal(n);
    assert s[0] == '-' && s[1..] == NatToDecimal(n);
    NatToDecimalValue(n);
  }

  /** `AllDigits` says that every character is a decimal digit. */
  lemma {:induction false} AllDigitsIff(s: string)
    ensures AllDigits(s) <==> forall i :: 0 <= i < |s| ==> IsDigit(s[i])
  {
    if |s| > 0 {
      AllDigitsIff(s[..|s| - 1]);
    }
  }

  /** The texts `ParseInt64` reads: an optional `+` or `-`, then one or more decimal digits
      (leading zeros allowed). The value is the digits' value, negated after `-`, and the text
      is refused when that value leaves the int64 range. */
  lemma ParseInt64Reads(sign: string, digits: string)
    requires sign == "" || sign == "+" || sign == "-"
    requires |digits| > 0 && forall i :: 0 <= i < |digits| ==> IsDigit(digits[i])
    ensures AllDigits(digits)
    ensures var v := if sign == "-" then -(DigitsValue(digits) as int) else DigitsValue(digits);
      ParseInt64(sign + digits) == if MinInt64 <= v <= MaxInt64 then Some(v) else None
  {
    AllDigitsIff(digits);
    var s := sign + digits;
    if sign == "" {
      assert s == digits && IsDigit(s[0]);
    } else {
      assert s[0] == sign[0] && s[1..] == digits;
    }
  }

  /** Every other text is refused: one with a character other than a digit after the optional
      sign (a second sign, a space, a dot, an underscore)... */
  lemma ParseInt64RejectsNonDigit(s: string, i: nat)
    requires i < |s| && !IsDigit(s[i])
    requires i > 0 || (s[0] != '+' && s[0] != '-')
    ensures ParseInt64(s) == None
  {
    var signed := s[0] == '-' || s[0] == '+';
    var digits := if signed then s[1..] else s;
    var j := if signed then i - 1 else i;
    assert digits[j] == s[i];
    AllDigitsIff(digits);
  }

  /** ...and one without digits. */
  lemma ParseInt64RejectsNoDigits(s: string)
    requires s == "" || s == "+" || s == "-"
    ensures ParseInt64(s) == None
  {
  }

  /** A sign and leading zeros are read as in Go: `+7` and `007` are 7, `-0` is 0; `7a`, ` 7`
      and `0x7` are refused. */
  lemma ParseInt64Examples()
    ensures ParseInt64("+7") == Some(7) && ParseInt64("007") == Some(7) && ParseInt64("-0") == Some(0)
    ensures ParseInt64("7a") == None && ParseInt64(" 7") == None && ParseInt64("0x7") == None
  {
    ParseInt64Reads("+", "7");
    ParseInt64Reads("", "007");
    ParseInt64Reads("-", "0");
    ParseInt64RejectsNonDigit("7a", 1);
    ParseInt64RejectsNonDigit(" 7", 0);
    ParseInt64RejectsNonDigit("0x7", 1);
  }

  // ---------------------------------------------------------------- quoting

  /** Go's `strconv.IsPrint`: printable ASCII is the space and the visible characters. Beyond
      ASCII the model knows the characters that are not printable among the C1 controls, the
      white space, the soft hyphen, the invisible format characters and the private-use areas;
      every other character counts as printable. */
  predicate IsPrint(c: char)
  {
    if c < '\U{0080}' then ' ' <= c <= '~'
    else
      && !('\U{0080}' <= c <= '\U{00A0}') && c != '\U{00AD}' && !IsCommonSpace(c) && !IsFormat(c)
      && !('\U{E000}' <= c <= '\U{F8FF}') && c < '\U{F0000}'
  }

  /** Invisible format characters (Unicode category Cf) that Go escapes. */
  predicate IsFormat(c: char)
  {
    || ('\U{200B}' <= c <= '\U{200F}') || ('\U{202A}' <= c <= '\U{202E}')
    || ('\U{2060}' <= c <= '\U{2064}') || ('\U{2066}' <= c <= '\U{206F}')
    || c == '\U{FEFF}' || ('\U{FFF9}' <= c <= '\U{FFFB}')
  }

  /** The lower-case hexadecimal digit of `d` (strconv's `lowerhex` table). */
  function HexChar(d: nat): (c: char)
    requires d < 16
    ensures IsHexDigit(c) && IsPrint(c)
  {
    if d < 10 then ('0' as int + d) as char else ('a' as int + d - 10) as char
  }

  predicate IsHexDigit(c: char)
  {
    '0' <= c <= '9' || 'a' <= c <= 'f' || 'A' <= c <= 'F'
  }

  function HexDigitValue(c: char): nat
    requires IsHexDigit(c)
  {
    if '0' <= c <= '9' then c as int - '0' as int
    else if 'a' <= c <= 'f' then c as int - 'a' as int + 10
    else c as int - 'A' as int + 10
  }

  /** Every character is a hexadecimal digit (read from the end, as `HexValue` reads it). */
  predicate AllHex(s: string)
  {
    |s| == 0 || (AllHex(s[..|s| - 1]) && IsHexDigit(s[|s| - 1]))
  }

  /** The value of a string of hexadecimal digits. */
  function HexValue(s: string): nat
    requires AllHex(s)
  {
    if |s| == 0 then 0 else HexValue(s[..|s| - 1]) * 16 + HexDigitValue(s[|s| - 1])
  }

  function Pow16(width: nat): (r: nat)
    ensures r > 0
  {
    if width == 0 then 1 else 16 * Pow16(width - 1)
  }

  /** The `width` lowest hexadecimal digits of `n`, most significant first, as `%q` writes
      them after `\x`, `\u` and `\U`. */
  function Hex(n: nat, width: nat): (r: string)
    ensures |r| == width
    ensures forall i :: 0 <= i < width ==> IsPrint(r[i])
  {
    if width == 0 then "" else Hex(n / 16, width - 1) + [HexChar(n % 16)]
  }

  /** Reading the digits back gives the number, when it fits in `width` digits. */
  lemma {:induction false} HexRoundTrip(n: nat, width: nat)
    requires n < Pow16(width)
    ensures AllHex(Hex(n, width)) && HexValue(Hex(n, width)) == n
  {
    if width > 0 {
      var h := Hex(n, width);
      assert h[..width - 1] == Hex(n / 16, width - 1);
      assert n / 16 < Pow16(width - 1);
      HexRoundTrip(n / 16, width - 1);
      var d := n % 16;
      assert HexDigitValue(HexChar(d)) == d;
    }
  }

  /** The seven C control characters with an escape of their own: `\a \b \f \n \r \t \v`. */
  predicate HasNamedEscape(c: char)
  {
    c == '\U{0007}' || c == '\U{0008}' || c == '\U{000C}' || c == '\n' || c == '\r' || c == '\t' || c == '\U{000B}'
  }

  function EscapeLetter(c: char): (l: char)
    requires HasNamedEscape(c)
    ensures IsEscapeLetter(l) && IsPrint(l) && UnescapeLetter(l) == c
  {
    if c == '\U{0007}' then 'a'
    else if c == '\U{0008}' then 'b'
    else if c == '\U{000C}' then 'f'
    else if c == '\n' then 'n'
    else if c == '\r' then 'r'
    else if c == '\t' then 't'
    else 'v'
  }

  predicate IsEscapeLetter(l: char)
  {
    l == 'a' || l == 'b' || l == 'f' || l == 'n' || l == 'r' || l == 't' || l == 'v'
  }

  function UnescapeLetter(l: char): char
    requires IsEscapeLetter(l)
  {
    if l == 'a' then '\U{0007}'
    else if l == 'b' then '\U{0008}'
    else if l == 'f' then '\U{000C}'
    else if l == 'n' then '\n'
    else if l == 'r' then '\r'
    else if l == 't' then '\t'
    else '\U{000B}'
  }

  /** The escape Go's `%q` verb writes for one character: a backslash before `"` and `\`, the
      character itself when it is printable, a named escape for the seven C control characters
      that have one, `\x` and two digits for the other ASCII controls and DEL, `\u` and four
      digits, or `\U` and eight, for the other characters that are not printable. */
  function EscapeChar(c: char): (r: string)
    ensures |r| == 1 <==> IsPrint(c) && c != '"' && c != '\\'
    ensures |r| == 1 ==> r == [c]
    ensures |r| > 1 ==> r[0] == '\\'
    ensures forall i :: 0 <= i < |r| ==> IsPrint(r[i])
  {
    if c == '"' || c == '\\' then ['\\', c]
    else if IsPrint(c) then [c]
    else if HasNamedEscape(c) then ['\\', EscapeLetter(c)]
    else HexEscapeText(c)
  }

  /** The `\x`, `\u` or `\U` escape of a character: two digits for the ASCII controls and
      DEL, four for the rest of the Basic Multilingual Plane, eight beyond it. */
  function HexEscapeText(c: char): (r: string)
    ensures |r| > 2 && r[0] == '\\'
    ensures forall i :: 0 <= i < |r| ==> IsPrint(r[i])
  {
    if c < ' ' || c == '\U{007F}' then "\\x" + Hex(c as int, 2)
    else if (c as int) < 0x1_0000 then "\\u" + Hex(c as int, 4)
    else "\\U" + Hex(c as int, 8)
  }

  function Escape(s: string): (r: string)
    ensures forall i :: 0 <= i < |r| ==> IsPrint(r[i])
  {
    if |s| == 0 then "" else EscapeChar(s[0]) + Escape(s[1..])
  }

  /** Go's `fmt.Sprintf("%q", s)`: a double-quoted, escaped string literal made of printable
      characters only (`QuoteRoundTrip` says that nothing is lost). */
  function Quote(s: string): (r: string)
    ensures |r| >= 2 && r[0] == '"' && r[|r| - 1] == '"'
    ensures forall i :: 0 <= i < |r| ==> IsPrint(r[i])
  {
    "\"" + Escape(s) + "\""
  }

  /** The character a `\x`, `\u` or `\U` escape with `width` digits at the front of `t` spells. */
  function HexEscape(t: string, width: nat): (r: Option<(char, nat)>)
    ensures r.Some? ==> r.value.1 == width + 2 <= |t|
  {
    if |t| < width + 2 || !AllHex(t[2..width + 2]) then None
    else
      var v := HexValue(t[2..width + 2]);
      if v < 0xD800 || 0xE000 <= v < 0x11_0000 then Some((v as char, width + 2)) else None
  }

  /** The first character of a double-quoted Go literal's body and the length of its spelling:
      a character other than `"` and `\`, or one of the escapes `strconv.Unquote` reads. */
  function NextChar(t: string): (r: Option<(char, nat)>)
    ensures r.Some? ==> 0 < r.value.1 <= |t|
  {
    if |t| == 0 || t[0] == '"' then None
    else if t[0] != '\\' then Some((t[0], 1))
    else if |t| < 2 then None
    else if IsEscapeLetter(t[1]) then Some((UnescapeLetter(t[1]), 2))
    else if t[1] == '\\' || t[1] == '"' then Some((t[1], 2))
    else if t[1] == 'x' then HexEscape(t, 2)
    else if t[1] == 'u' then HexEscape(t, 4)
    else if t[1] == 'U' then HexEscape(t, 8)
    else None
  }

  /** The characters the body of a double-quoted Go literal spells, escape by escape. */
  function Unescape(t: string): Option<string>
    decreases |t|
  {
    if |t| == 0 then Some("")
    else
      match NextChar(t)
      case None => None
      case Some((c, n)) =>
        match Unescape(t[n..])
        case None => None
        case Some(u) => Some([c] + u)
  }

  /** Go's `strconv.Unquote` on a double-quoted literal. */
  function Unquote(q: string): Option<string>
  {
    if |q| < 2 || q[0] != '"' || q[|q| - 1] != '"' then None else Unescape(q[1..|q| - 1])
  }

  /** Each escape reads back as the character it was written for. */
  lemma NextOfEscape(c: char, rest: string)
    ensures NextChar(EscapeChar(c) + rest) == Some((c, |EscapeChar(c)|))
  {
    if c == '"' || c == '\\' || IsPrint(c) || HasNamedEscape(c) {
      NextOfShortEscape(c, rest);
    } else {
      NextOfHexEscape(c, rest);
    }
  }

  lemma NextOfShortEscape(c: char, rest: string)
    requires c == '"' || c == '\\' || IsPrint(c) || HasNamedEscape(c)
    ensures NextChar(EscapeChar(c) + rest) == Some((c, |EscapeChar(c)|))
  {
    if c == '"' || c == '\\' {
      assert EscapeChar(c) == ['\\', c];
    } else if IsPrint(c) {
      assert EscapeChar(c) == [c];
    } else {
      assert EscapeChar(c) == ['\\', EscapeLetter(c)];
    }
  }

  lemma NextOfHexEscape(c: char, rest: string)
    ensures NextChar(HexEscapeText(c) + rest) == Some((c, |HexEscapeText(c)|))
  {
    if c < ' ' || c == '\U{007F}' {
      HexEscapeOf(c, 2, 'x', rest);
    } else if (c as int) < 0x1_0000 {
      HexEscapeOf(c, 4, 'u', rest);
    } else {
      HexEscapeOf(c, 8, 'U', rest);
    }
  }

  lemma HexEscapeOf(c: char, width: nat, letter: char, rest: string)
    requires (c as int) < Pow16(width)
    requires (letter == 'x' && width == 2) || (letter == 'u' && width == 4) || (letter == 'U' && width == 8)
    ensures NextChar(['\\', letter] + Hex(c as int, width) + rest) == Some((c, width + 2))
  {
    var t := ['\\', letter] + Hex(c as int, width) + rest;
    assert t[0] == '\\' && t[1] == letter;
    assert t[2..width + 2] == Hex(c as int, width);
    HexRoundTrip(c as int, width);
  }

  lemma {:induction false} UnescapeEscape(s: string)
    ensures Unescape(Escape(s)) == Some(s)
  {
    if |s| > 0 {
      var e := EscapeChar(s[0]);
      NextOfEscape(s[0], Escape(s[1..]));
      assert (e + Escape(s[1..]))[|e|..] == Escape(s[1..]);
      UnescapeEscape(s[1..]);
      assert [s[0]] + s[1..] == s;
    }
  }

  /** `strconv.Unquote` undoes `%q`: the quoted form of every string reads back as it. */
  lemma QuoteRoundTrip(s: string)
    ensures Unquote(Quote(s)) == Some(s)
  {
    var q := Quote(s);
    assert q[1..|q| - 1] == Escape(s);
    UnescapeEscape(s);
  }

  /** The no-break space that `strings.TrimSpace` removes is quoted as `\u00a0`. */
  lemma QuoteNoBreakSpace()
    ensures Quote("\U{00A0}") == "\"\\u00a0\""
  {
    EscapeNoBreakSpace();
    assert Escape("\U{00A0}") == EscapeChar('\U{00A0}') + Escape("");
  }

  lemma EscapeNoBreakSpace()
    ensures EscapeChar('\U{00A0}') == "\\u00a0"
  {
    assert !IsPrint('\U{00A0}') && !HasNamedEscape('\U{00A0}');
    HexOfNoBreakSpace();
  }

  lemma HexOfNoBreakSpace()
    ensures Hex(0xA0, 4) == "00a0"
  {
    assert Hex(0, 2) == "00";
    assert Hex(0xA, 3) == "00a";
  }
}
