/** The text operations the runtime's decisions depend on: ASCII case, trimming, numerals and hex. */
module Text {
  import opened Prelude

  type Byte = b: int | 0 <= b < 256

  function Concat(parts: seq<seq<Byte>>): seq<Byte> {
    if parts == [] then [] else Concat(parts[..|parts| - 1]) + parts[|parts| - 1]
  }

  function LowerChar(c: char): char {
    if 'A' <= c <= 'Z' then (c as int + 32) as char else c
  }

  function UpperChar(c: char): char {
    if 'a' <= c <= 'z' then (c as int - 32) as char else c
  }

  function Lower(s: string): (r: string)
    ensures |r| == |s|
    ensures forall i :: 0 <= i < |s| ==> r[i] == LowerChar(s[i])
  {
    seq(|s|, i requires 0 <= i < |s| => LowerChar(s[i]))
  }

  function Upper(s: string): (r: string)
    ensures |r| == |s|
    ensures forall i :: 0 <= i < |s| ==> r[i] == UpperChar(s[i])
  {
    seq(|s|, i requires 0 <= i < |s| => UpperChar(s[i]))
  }

  /** The same character, or the two cases of one ASCII letter. */
  predicate SameLetter(c: char, d: char) {
    c == d || ('A' <= c <= 'Z' && d as int == c as int + 32) || ('A' <= d <= 'Z' && c as int == d as int + 32)
  }

  predicate SameLetters(s: string, t: string) {
    |s| == |t| && forall i :: 0 <= i < |s| ==> SameLetter(s[i], t[i])
  }

  /** Lower-casing identifies exactly the strings that differ in ASCII case only. */
  lemma LowerMeansSameLetters(s: string, t: string)
    ensures Lower(s) == Lower(t) <==> SameLetters(s, t)
  {
    if Lower(s) == Lower(t) {
      forall i | 0 <= i < |s|
        ensures SameLetter(s[i], t[i])
      {
        assert Lower(s)[i] == Lower(t)[i];
      }
    }
  }

  /** The Unicode White_Space characters. */
  predicate IsSpace(c: char) {
    var n := c as int;
    || 0x9 <= n <= 0xD || n == 0x20 || n == 0x85 || n == 0xA0 || n == 0x1680
    || 0x2000 <= n <= 0x200A || n == 0x2028 || n == 0x2029 || n == 0x202F || n == 0x205F || n == 0x3000
  }

  function TrimStart(s: string): string {
    if s != [] && IsSpace(s[0]) then TrimStart(s[1..]) else s
  }

  function TrimEnd(s: string): string {
    if s != [] && IsSpace(s[|s| - 1]) then TrimEnd(s[..|s| - 1]) else s
  }

  /** `normalize_token_symbol`: trim, then ASCII upper case. */
  function NormalizeSymbol(symbol: string): string {
    Upper(TrimEnd(TrimStart(symbol)))
  }

  lemma {:induction false} TrimStartClean(s: string)
    ensures TrimStart(s) == [] || !IsSpace(TrimStart(s)[0])
    decreases |s|
  {
    if s != [] && IsSpace(s[0]) {
      TrimStartClean(s[1..]);
    }
  }

  lemma {:induction false} TrimEndClean(s: string)
    ensures TrimEnd(s) <= s
    ensures TrimEnd(s) == [] || !IsSpace(TrimEnd(s)[|TrimEnd(s)| - 1])
    decreases |s|
  {
    if s != [] && IsSpace(s[|s| - 1]) {
      TrimEndClean(s[..|s| - 1]);
    }
  }

  lemma {:induction false} TrimStartSkips(s: string)
    ensures |TrimStart(s)| <= |s| && TrimStart(s) == s[|s| - |TrimStart(s)|..]
    ensures forall i :: 0 <= i < |s| - |TrimStart(s)| ==> IsSpace(s[i])
    decreases |s|
  {
    if s != [] && IsSpace(s[0]) {
      TrimStartSkips(s[1..]);
      var k := |s| - |TrimStart(s)|;
      assert s[1..][k - 1..] == s[k..];
      assert forall i :: 0 < i < k ==> s[i] == s[1..][i - 1];
    }
  }

  lemma {:induction false} TrimEndSkips(s: string)
    ensures TrimEnd(s) <= s && forall i :: |TrimEnd(s)| <= i < |s| ==> IsSpace(s[i])
    decreases |s|
  {
    if s != [] && IsSpace(s[|s| - 1]) {
      TrimEndSkips(s[..|s| - 1]);
    }
  }

  /**
   * A normalized symbol is the stretch of the symbol from its first to its last character that is not
   * white space, letter for letter, with no lower-case letter left.
   */
  lemma NormalizeSymbolMeans(symbol: string)
    ensures var (n, k) := (NormalizeSymbol(symbol), |symbol| - |TrimStart(symbol)|);
            && 0 <= k && k + |n| <= |symbol|
            && SameLetters(n, symbol[k..k + |n|]) && (forall i :: 0 <= i < |n| ==> !('a' <= n[i] <= 'z'))
            && (forall i :: 0 <= i < k || k + |n| <= i < |symbol| ==> IsSpace(symbol[i]))
            && (n != [] ==> !IsSpace(symbol[k]) && !IsSpace(symbol[k + |n| - 1]))
  {
    hide TrimStart, TrimEnd, IsSpace;
    TrimStartSkips(symbol);
    TrimStartClean(symbol);
    var start := TrimStart(symbol);
    TrimEndSkips(start);
    TrimEndClean(start);
    var (n, k) := (NormalizeSymbol(symbol), |symbol| - |start|);
    assert start == symbol[k..];
    assert forall i :: k + |n| <= i < |symbol| ==> symbol[i] == start[i - k];
    assert symbol[k..k + |n|] == TrimEnd(start);
  }

  /** Normalizing a symbol twice is the same as normalizing it once. */
  lemma NormalizeSymbolIdempotent(symbol: string)
    ensures NormalizeSymbol(NormalizeSymbol(symbol)) == NormalizeSymbol(symbol)
  {
    var start := TrimStart(symbol);
    TrimStartClean(symbol);
    TrimEndClean(start);
    var core := TrimEnd(start);
    var once := Upper(core);
    assert TrimStart(once) == once;
    assert TrimEnd(once) == once;
    assert Upper(once) == once;
  }

  /** `u64` / `u128` parsing: an optional plus sign, then decimal digits, below the limit. */
  function ParseUint(s: string, limit: nat): Option<nat> {
    var digits := if s != [] && s[0] == '+' then s[1..] else s;
    if digits == [] || exists i :: 0 <= i < |digits| && !('0' <= digits[i] <= '9') then
      None
    else if Decimal(digits) <= limit then Some(Decimal(digits)) else None
  }

  function Decimal(digits: string): nat
    requires forall i :: 0 <= i < |digits| ==> '0' <= digits[i] <= '9'
  {
    if digits == [] then 0
    else 10 * Decimal(digits[..|digits| - 1]) + (digits[|digits| - 1] as int - '0' as int)
  }

  predicate IsHexDigit(c: char) {
    '0' <= c <= '9' || 'a' <= c <= 'f' || 'A' <= c <= 'F'
  }

  function HexDigit(c: char): (r: nat)
    requires IsHexDigit(c)
    ensures r < 16
  {
    if c <= '9' then c as int - '0' as int
    else if c <= 'F' then c as int - 'A' as int + 10
    else c as int - 'a' as int + 10
  }

  /** Decodes pairs of hex digits of either case; fails on odd length or a foreign character. */
  function HexDecode(s: string): Option<seq<Byte>> {
    if |s| % 2 != 0 || exists i :: 0 <= i < |s| && !IsHexDigit(s[i]) then None
    else Some(seq(|s| / 2, i requires 0 <= i < |s| / 2 => 16 * HexDigit(s[2 * i]) + HexDigit(s[2 * i + 1])))
  }

  // ----- hex as numbers -----

  /** The number a byte string stands for, most significant byte first. */
  function BigEndian(bytes: seq<Byte>): nat {
    if bytes == [] then 0 else 256 * BigEndian(bytes[..|bytes| - 1]) + bytes[|bytes| - 1]
  }

  /** The sixteen digits in order, in lower case. */
  function HexDigits(): (r: string)
    ensures |r| == 16
  {
    "0123456789abcdef"
  }

  /** A digit's value is its place among the sixteen digits. */
  lemma HexDigitMeans(c: char)
    ensures IsHexDigit(c) <==> exists v :: 0 <= v < 16 && SameLetter(c, HexDigits()[v])
    ensures IsHexDigit(c) ==> SameLetter(c, HexDigits()[HexDigit(c)])
  {
    if IsHexDigit(c) {
      assert 0 <= HexDigit(c) < 16 && SameLetter(c, HexDigits()[HexDigit(c)]);
    }
  }

  /** The text is exactly the hex digits of `length` bytes. */
  predicate IsHexOf(text: string, length: nat) {
    |text| == 2 * length && forall i :: 0 <= i < |text| ==> IsHexDigit(text[i])
  }

  /** The number hex digits stand for, read left to right in base 16. */
  function HexValue(digits: string): nat
    requires forall i :: 0 <= i < |digits| ==> IsHexDigit(digits[i])
  {
    if digits == [] then 0 else 16 * HexValue(digits[..|digits| - 1]) + HexDigit(digits[|digits| - 1])
  }

  lemma DecodesExactly(text: string, length: nat)
    ensures HexDecode(text).Some? && |HexDecode(text).value| == length <==> IsHexOf(text, length)
  {
  }

  /** Decoded bytes, read as one number, are the number the digits stand for. */
  lemma {:induction false} HexDecodeMeans(text: string, length: nat)
    requires IsHexOf(text, length)
    ensures HexDecode(text).Some? && |HexDecode(text).value| == length
    ensures BigEndian(HexDecode(text).value) == HexValue(text)
    decreases length
  {
    hide HexDecode, HexDigit, IsHexDigit;
    DecodesExactly(text, length);
    if length > 0 {
      var (n, most) := (|text|, text[..|text| - 2]);
      var two := text[n - 2..];
      HexDecodeMeans(most, length - 1);
      DecodeMore(most, two);
      assert text == most + two;
      var bytes := HexDecode(text).value;
      assert bytes[..length - 1] == HexDecode(most).value;
      assert text[..n - 1][..n - 2] == most;
      assert HexValue(text[..n - 1]) == 16 * HexValue(most) + HexDigit(two[0]);
      assert HexValue(text) == 16 * HexValue(text[..n - 1]) + HexDigit(two[1]);
    } else {
      assert HexDecode(text).value == [];
    }
  }

  /** Bytes printed as lower-case hex. */
  function PrintHex(bytes: seq<Byte>): string {
    if bytes == [] then []
    else
      var b := bytes[|bytes| - 1];
      PrintHex(bytes[..|bytes| - 1]) + [HexDigits()[b / 16], HexDigits()[b % 16]]
  }

  lemma DigitPrinted(v: nat)
    requires v < 16
    ensures IsHexDigit(HexDigits()[v]) && HexDigit(HexDigits()[v]) == v
  {
  }

  /** Decoding printed bytes gives them back. */
  lemma {:induction false} DecodePrinted(bytes: seq<Byte>)
    ensures IsHexOf(PrintHex(bytes), |bytes|) && HexDecode(PrintHex(bytes)) == Some(bytes)
  {
    hide HexDigits, HexDigit, IsHexDigit;
    if bytes != [] {
      var (most, b) := (bytes[..|bytes| - 1], bytes[|bytes| - 1]);
      DecodePrinted(most);
      DigitPrinted(b / 16);
      DigitPrinted(b % 16);
      DecodeMore(PrintHex(most), [HexDigits()[b / 16], HexDigits()[b % 16]]);
      assert 16 * (b / 16) + b % 16 == b;
      assert bytes == most + [b];
    } else {
      assert HexDecode([]).value == [];
    }
  }

  lemma DecodeMore(text: string, two: string)
    requires HexDecode(text).Some? && |two| == 2 && IsHexDigit(two[0]) && IsHexDigit(two[1])
    ensures HexDecode(text + two) == Some(HexDecode(text).value + [16 * HexDigit(two[0]) + HexDigit(two[1])])
  {
    hide HexDigit, IsHexDigit;
    var all := text + two;
    var n := |text| / 2;
    assert forall i :: 0 <= i < |all| ==> IsHexDigit(all[i]);
    var bytes := HexDecode(all).value;
    forall i | 0 <= i < n
      ensures bytes[i] == HexDecode(text).value[i]
    {
      assert all[2 * i] == text[2 * i] && all[2 * i + 1] == text[2 * i + 1];
    }
    assert all[2 * n] == two[0] && all[2 * n + 1] == two[1];
    assert bytes == HexDecode(text).value + [16 * HexDigit(two[0]) + HexDigit(two[1])];
  }

  /** Equal bytes come from the same digits, up to case. */
  lemma DecodeFixesLetters(s: string, t: string)
    requires HexDecode(s).Some? && HexDecode(s) == HexDecode(t)
    ensures SameLetters(s, t)
  {
    hide HexDigit, SameLetter;
    var (a, b) := (HexDecode(s).value, HexDecode(t).value);
    assert |s| == 2 * |a| == |t|;
    forall i | 0 <= i < |s|
      ensures SameLetter(s[i], t[i])
    {
      var k := i / 2;
      assert a[k] == b[k];
      assert 16 * HexDigit(s[2 * k]) + HexDigit(s[2 * k + 1]) == 16 * HexDigit(t[2 * k]) + HexDigit(t[2 * k + 1]);
      EqualDigits(s[2 * k], t[2 * k]);
      EqualDigits(s[2 * k + 1], t[2 * k + 1]);
    }
  }

  lemma EqualDigits(c: char, d: char)
    requires IsHexDigit(c) && IsHexDigit(d) && HexDigit(c) == HexDigit(d)
    ensures SameLetter(c, d)
  {
  }

  // ----- decimals -----

  function Digits(): (r: string)
    ensures |r| == 10
  {
    "0123456789"
  }

  function PrintDecimal(n: nat): string {
    (if n < 10 then [] else PrintDecimal(n / 10)) + [Digits()[n % 10]]
  }

  lemma DigitMeans(v: nat)
    requires v < 10
    ensures '0' <= Digits()[v] <= '9' && Digits()[v] as int - '0' as int == v
  {
  }

  lemma {:induction false} DecimalOfPrinted(n: nat)
    ensures PrintDecimal(n) != [] && forall i :: 0 <= i < |PrintDecimal(n)| ==> '0' <= PrintDecimal(n)[i] <= '9'
    ensures Decimal(PrintDecimal(n)) == n
  {
    hide Digits;
    DigitMeans(n % 10);
    if n >= 10 {
      DecimalOfPrinted(n / 10);
    }
    var s := PrintDecimal(n);
    assert s[..|s| - 1] == if n < 10 then [] else PrintDecimal(n / 10);
  }

  /** A printed number, with or without a plus sign, parses to itself exactly within the limit. */
  lemma ParsePrinted(n: nat, limit: nat)
    ensures ParseUint(PrintDecimal(n), limit) == if n <= limit then Some(n) else None
    ensures ParseUint(['+'] + PrintDecimal(n), limit) == if n <= limit then Some(n) else None
  {
    hide PrintDecimal, Decimal;
    DecimalOfPrinted(n);
    assert (['+'] + PrintDecimal(n))[1..] == PrintDecimal(n);
  }
}
