/** The few .NET base-library string and number routines the manifest reader
    relies on: string.IsNullOrWhiteSpace, string.Split(char), int.TryParse,
    byte.TryParse and Convert.ToInt64(string, 16). Each is given as a small
    specified function with a rendering function as its partner. */
module Primitives {
  import opened Wrappers

  const Int32Min: int := -0x8000_0000
  const Int32Max: int := 0x7FFF_FFFF
  const TwoTo63: int := 0x8000_0000_0000_0000
  const TwoTo64: int := 0x1_0000_0000_0000_0000

  // ---------------------------------------------------------------------------
  // White space

  /** char.IsWhiteSpace: U+0009..U+000D, U+0085 and the Unicode space,
      line and paragraph separators. */
  predicate IsWhiteSpace(c: char) {
    var n := c as int;
    (0x09 <= n <= 0x0D) || n == 0x20 || n == 0x85 || n == 0xA0 || n == 0x1680
    || (0x2000 <= n <= 0x200A) || n == 0x2028 || n == 0x2029 || n == 0x202F
    || n == 0x205F || n == 0x3000
  }

  /** Every character is white space (the empty string included). */
  predicate IsBlank(s: string) {
    forall i :: 0 <= i < |s| ==> IsWhiteSpace(s[i])
  }

  /** string.IsNullOrWhiteSpace; a null string is None. Null and empty
      strings are blank, and a string starting with anything but white
      space is not. */
  predicate IsNullOrWhiteSpace(s: Option<string>)
    ensures s.None? || s == Some("") ==> IsNullOrWhiteSpace(s)
    ensures s.Some? && |s.value| > 0 && !IsWhiteSpace(s.value[0]) ==> !IsNullOrWhiteSpace(s)
  {
    s.None? || IsBlank(s.value)
  }

  // ---------------------------------------------------------------------------
  // string.Split(char) and its inverse

  /** string.Split(sep): the pieces between separators, empty pieces kept. */
  function Split(s: string, sep: char): (parts: seq<string>)
    ensures |parts| >= 1
    ensures forall i :: 0 <= i < |parts| ==> sep !in parts[i]
    decreases |s|
  {
    if s == [] then [""]
    else
      var rest := Split(s[1..], sep);
      if s[0] == sep then [""] + rest else [[s[0]] + rest[0]] + rest[1..]
  }

  /** string.Join(sep, parts). */
  function Join(parts: seq<string>, sep: char): string
  {
    if parts == [] then ""
    else if |parts| == 1 then parts[0]
    else parts[0] + [sep] + Join(parts[1..], sep)
  }

  /** Splitting loses nothing: joining the pieces back gives the string. */
  lemma {:induction false} JoinSplit(s: string, sep: char)
    ensures Join(Split(s, sep), sep) == s
  {
    if s != [] {
      var rest := Split(s[1..], sep);
      JoinSplit(s[1..], sep);
      if s[0] == sep {
        assert ([""] + rest)[1..] == rest;
      } else {
        var head := [s[0]] + rest[0];
        if |rest| == 1 {
          assert Join(rest, sep) == rest[0];
        } else {
          assert ([head] + rest[1..])[1..] == rest[1..];
          assert Join(rest, sep) == rest[0] + [sep] + Join(rest[1..], sep);
        }
      }
    }
  }

  /** Joining pieces free of the separator and splitting again gives the
      pieces back. */
  lemma {:induction false} SplitJoin(parts: seq<string>, sep: char)
    requires |parts| >= 1
    requires forall i :: 0 <= i < |parts| ==> sep !in parts[i]
    ensures Split(Join(parts, sep), sep) == parts
    decreases |parts|, |parts[0]|
  {
    if |parts| == 1 {
      SplitWithoutSeparator(parts[0], sep);
    } else if parts[0] == [] {
      var tail := parts[1..];
      SplitJoin(tail, sep);
      assert Join(parts, sep) == [sep] + Join(tail, sep);
      assert ([sep] + Join(tail, sep))[1..] == Join(tail, sep);
      assert [""] + tail == parts;
    } else {
      var c := parts[0][0];
      var shorter := [parts[0][1..]] + parts[1..];
      assert shorter[1..] == parts[1..];
      assert forall i :: 0 <= i < |shorter| ==> sep !in shorter[i] by {
        forall i | 0 <= i < |shorter| ensures sep !in shorter[i] {
          if i == 0 {
            assert parts[0] == [c] + parts[0][1..];
          } else {
            assert shorter[i] == parts[i];
          }
        }
      }
      SplitJoin(shorter, sep);
      var j := Join(parts, sep);
      assert j == [c] + Join(shorter, sep);
      assert j[1..] == Join(shorter, sep);
      assert j[0] == c && c != sep;
      var rest := Split(j[1..], sep);
      assert rest == shorter;
      assert [c] + rest[0] == parts[0];
      assert [parts[0]] + parts[1..] == parts;
    }
  }

  lemma {:induction false} SplitWithoutSeparator(s: string, sep: char)
    requires sep !in s
    ensures Split(s, sep) == [s]
    decreases |s|
  {
    if s != [] {
      SplitWithoutSeparator(s[1..], sep);
      assert [s[0]] + s[1..] == s;
    }
  }

  // ---------------------------------------------------------------------------
  // Decimal integers: int.TryParse and byte.TryParse with NumberStyles.Integer

  predicate IsDigit(c: char) {
    '0' <= c <= '9'
  }

  predicate AllDigits(s: string) {
    forall i :: 0 <= i < |s| ==> IsDigit(s[i])
  }

  /** The value of a string of decimal digits, most significant first. */
  function DigitsValue(s: string): nat
    requires AllDigits(s)
  {
    if s == [] then 0
    else DigitsValue(s[..|s| - 1]) * 10 + (s[|s| - 1] as int - '0' as int)
  }

  /** The white space NumberStyles.AllowLeadingWhite/AllowTrailingWhite
      accept: U+0009..U+000D and U+0020 only. */
  predicate IsNumberWhite(c: char) {
    c == ' ' || ('\t' <= c <= '\r')
  }

  function SkipLeadingWhite(s: string): (t: string)
    ensures |t| <= |s| && t == s[|s| - |t|..]
    ensures t != [] ==> !IsNumberWhite(t[0])
  {
    if s != [] && IsNumberWhite(s[0]) then SkipLeadingWhite(s[1..]) else s
  }

  function SkipTrailingWhite(s: string): (t: string)
    ensures |t| <= |s| && t == s[..|t|]
    ensures t != [] ==> !IsNumberWhite(t[|t| - 1])
  {
    if s != [] && IsNumberWhite(s[|s| - 1]) then SkipTrailingWhite(s[..|s| - 1]) else s
  }

  /** Number parsing with NumberStyles.Integer: optional white space, an
      optional '+' or '-', one or more decimal digits, optional white space.
      None when the text does not have that shape or the value is outside
      [lo, hi]; a null string is None. */
  function ParseInteger(s: Option<string>, lo: int, hi: int): (r: Option<int>)
    ensures r.Some? ==> lo <= r.value <= hi
  {
    if s.None? then None
    else
      var t := SkipTrailingWhite(SkipLeadingWhite(s.value));
      var signed := |t| > 0 && (t[0] == '-' || t[0] == '+');
      var digits := if signed then t[1..] else t;
      if digits == [] || !AllDigits(digits) then None
      else
        var magnitude: int := DigitsValue(digits);
        var v := if signed && t[0] == '-' then -magnitude else magnitude;
        if lo <= v <= hi then Some(v) else None
  }

  /** int.TryParse(s, out int): a 32-bit signed value or failure. */
  function TryParseInt32(s: Option<string>): (r: Option<int>)
    ensures r.Some? ==> Int32Min <= r.value <= Int32Max
  {
    ParseInteger(s, Int32Min, Int32Max)
  }

  /** byte.TryParse(s, out byte): a value in 0..255 or failure. */
  function TryParseByte(s: Option<string>): (r: Option<int>)
    ensures r.Some? ==> 0 <= r.value <= 255
  {
    ParseInteger(s, 0, 255)
  }

  /** The decimal digits of n, most significant first, without leading zeros. */
  function DecimalDigits(n: nat): (s: string)
    ensures |s| >= 1 && AllDigits(s)
  {
    if n < 10 then [('0' as int + n) as char]
    else DecimalDigits(n / 10) + [('0' as int + n % 10) as char]
  }

  /** int.ToString() with the invariant culture. */
  function DecimalText(n: int): string {
    if n < 0 then "-" + DecimalDigits(-n) else DecimalDigits(n)
  }

  lemma {:induction false} DecimalDigitsValue(n: nat)
    ensures DigitsValue(DecimalDigits(n)) == n
  {
    if n >= 10 {
      DecimalDigitsValue(n / 10);
      var s := DecimalDigits(n);
      assert s[..|s| - 1] == DecimalDigits(n / 10);
    }
  }

  /** Parsing the decimal text of a value in [lo, hi] gives the value back;
      in particular int.TryParse(n.ToString()) == n for every 32-bit n. */
  lemma ParseDecimalText(n: int, lo: int, hi: int)
    requires lo <= n <= hi
    ensures ParseInteger(Some(DecimalText(n)), lo, hi) == Some(n)
  {
    var text := DecimalText(n);
    var digits := DecimalDigits(if n < 0 then -n else n);
    DecimalDigitsValue(if n < 0 then -n else n);
    assert !IsNumberWhite(text[0]);
    assert SkipLeadingWhite(text) == text;
    assert text[|text| - 1] == digits[|digits| - 1];
    assert !IsNumberWhite(text[|text| - 1]);
    assert SkipTrailingWhite(text) == text;
    if n < 0 {
      assert text[1..] == digits;
    } else {
      assert !(text[0] == '-' || text[0] == '+');
    }
  }

  // ---------------------------------------------------------------------------
  // Hexadecimal: Convert.ToInt64(value, 16) on a value that starts with "0x"

  datatype NumberError = FormatError | OverflowError

  predicate IsHexDigit(c: char) {
    ('0' <= c <= '9') || ('a' <= c <= 'f') || ('A' <= c <= 'F')
  }

  predicate AllHex(s: string) {
    forall i :: 0 <= i < |s| ==> IsHexDigit(s[i])
  }

  function HexDigitValue(c: char): (v: nat)
    requires IsHexDigit(c)
    ensures v < 16
  {
    if '0' <= c <= '9' then c as int - '0' as int
    else if 'a' <= c <= 'f' then c as int - 'a' as int + 10
    else c as int - 'A' as int + 10
  }

  /** The value of a string of hexadecimal digits, most significant first. */
  function HexValue(s: string): nat
    requires AllHex(s)
  {
    if s == [] then 0
    else HexValue(s[..|s| - 1]) * 16 + HexDigitValue(s[|s| - 1])
  }

  /** The longest run of hexadecimal digits at the start of s: the digits
      the conversion reads before it looks at anything else. */
  function HexPrefix(s: string): (p: string)
    ensures AllHex(p) && p <= s
    ensures |p| < |s| ==> !IsHexDigit(s[|p|])
    ensures AllHex(s) ==> p == s
  {
    if s == [] || !IsHexDigit(s[0]) then []
    else [s[0]] + HexPrefix(s[1..])
  }

  /** Convert.ToInt64(value, 16) for a value "0x" + digits. The digits are
      read first: none at all is a FormatException, and a run worth 2^64 or
      more throws OverflowException while it is being read; only then does
      anything left after the run make a FormatException. The 64 bits are
      read as a two's-complement Int64, so a value with the top bit set
      comes out negative. */
  function HexToInt64(digits: string): (r: Result<int, NumberError>)
    ensures r.Success? ==> -TwoTo63 <= r.value < TwoTo63
    ensures r.Success? ==> AllHex(digits) && digits != []
    ensures r.Success? && r.value > 0 <==> (digits != [] && AllHex(digits) && 0 < HexValue(digits) < TwoTo63)
    ensures r == Failure(OverflowError) <==> HexValue(HexPrefix(digits)) >= TwoTo64
    ensures r == Failure(FormatError) <==>
              HexPrefix(digits) == [] || (HexValue(HexPrefix(digits)) < TwoTo64 && !AllHex(digits))
  {
    var run := HexPrefix(digits);
    if run == [] then Failure(FormatError)
    else
      var v := HexValue(run);
      if v >= TwoTo64 then Failure(OverflowError)
      else if run != digits then Failure(FormatError)
      else if v >= TwoTo63 then Success(v - TwoTo64)
      else Success(v)
  }

  /** A digit run too large for 64 bits overflows whatever follows it:
      "0x11111111111111111z" throws OverflowException, not FormatException. */
  lemma {:induction false} HexPrefixBeforeJunk(run: string, rest: string)
    requires AllHex(run)
    requires rest == [] || !IsHexDigit(rest[0])
    ensures HexPrefix(run + rest) == run
  {
    if run != [] {
      assert (run + rest)[1..] == run[1..] + rest;
      HexPrefixBeforeJunk(run[1..], rest);
    } else {
      assert run + rest == rest;
    }
  }

  lemma OverflowBeforeJunk(run: string, rest: string)
    requires AllHex(run) && HexValue(run) >= TwoTo64
    requires rest == [] || !IsHexDigit(rest[0])
    ensures HexToInt64(run + rest) == Failure(OverflowError)
  {
    HexPrefixBeforeJunk(run, rest);
  }

  function HexDigitChar(d: nat): (c: char)
    requires d < 16
    ensures IsHexDigit(c) && HexDigitValue(c) == d
  {
    if d < 10 then ('0' as int + d) as char else ('a' as int + d - 10) as char
  }

  /** The lower-case hexadecimal digits of n without leading zeros. */
  function HexDigits(n: nat): (s: string)
    ensures |s| >= 1 && AllHex(s)
  {
    if n < 16 then [HexDigitChar(n)]
    else HexDigits(n / 16) + [HexDigitChar(n % 16)]
  }

  lemma {:induction false} HexDigitsValue(n: nat)
    ensures HexValue(HexDigits(n)) == n
  {
    if n >= 16 {
      HexDigitsValue(n / 16);
      var s := HexDigits(n);
      assert s[..|s| - 1] == HexDigits(n / 16);
    }
  }

  /** Convert.ToInt64("0x" + hex(n), 16) is n for a non-negative Int64 n and
      n - 2^64 for a 64-bit pattern with the top bit set. */
  lemma HexRoundTrip(n: nat)
    requires n < TwoTo64
    ensures HexToInt64(HexDigits(n)) == Success(if n < TwoTo63 then n else n - TwoTo64)
  {
    HexDigitsValue(n);
  }
}
