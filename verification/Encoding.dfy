/** Big-endian words and the static ABI encoding, as the JavaScript and the Rust side compute them. */
module Encoding {
  import opened Prelude
  import opened Text
  import opened Ids

  // ----- big-endian numbers -----

  function Power256(n: nat): (r: nat)
    ensures r > 0
  {
    if n == 0 then 1 else 256 * Power256(n - 1)
  }

  /** The low `length` bytes of a number, most significant first. */
  function ToBytes(n: nat, length: nat): (r: seq<Byte>)
    ensures |r| == length
  {
    if length == 0 then [] else ToBytes(n / 256, length - 1) + [n % 256]
  }

  lemma {:induction false} BigEndianFits(bytes: seq<Byte>)
    ensures BigEndian(bytes) < Power256(|bytes|)
  {
    if bytes != [] {
      BigEndianFits(bytes[..|bytes| - 1]);
    }
  }

  lemma {:induction false} BigEndianCons(b: Byte, rest: seq<Byte>)
    ensures BigEndian([b] + rest) == b * Power256(|rest|) + BigEndian(rest)
  {
    if rest == [] {
      assert [b] + rest == [b];
      assert BigEndian([b]) == 256 * BigEndian([b][..0]) + b;
    } else {
      var most := rest[..|rest| - 1];
      BigEndianCons(b, most);
      var all := [b] + rest;
      assert all[..|all| - 1] == [b] + most;
      assert 256 * (b * Power256(|most|)) == b * Power256(|rest|);
    }
  }

  /** Encoding and decoding undo each other. */
  lemma {:induction false} DecodeEncoded(n: nat, length: nat)
    requires n < Power256(length)
    ensures BigEndian(ToBytes(n, length)) == n
  {
    if length > 0 {
      DecodeEncoded(n / 256, length - 1);
      var r := ToBytes(n, length);
      assert r[..|r| - 1] == ToBytes(n / 256, length - 1);
    }
  }

  lemma {:induction false} EncodeDecoded(bytes: seq<Byte>)
    ensures ToBytes(BigEndian(bytes), |bytes|) == bytes
  {
    if bytes != [] {
      var most := bytes[..|bytes| - 1];
      EncodeDecoded(most);
      var n := BigEndian(bytes);
      assert n / 256 == BigEndian(most) && n % 256 == bytes[|bytes| - 1];
      assert bytes == most + [bytes[|bytes| - 1]];
    }
  }

  function UintBytes(value: int, length: nat): Option<seq<Byte>> {
    if 0 <= value < Power256(length) then Some(ToBytes(value, length)) else None
  }

  /**
   * `uintBe`: fills the array from its last byte with the low byte of what remains; fails on a
   * negative value and when something remains at the end.
   */
  method UintBe(value: int, byteLength: nat) returns (r: Option<seq<Byte>>)
    ensures r == UintBytes(value, byteLength)
  {
    hide BigEndian, Power256, ToBytes;
    NoBytes();
    if value < 0 {
      return None;
    }
    var out := new Byte[byteLength];
    var remaining: nat := value;
    var i := byteLength;
    assert out[byteLength..] == [];
    while i > 0
      invariant 0 <= i <= byteLength
      invariant value == remaining * Power256(byteLength - i) + BigEndian(out[i..])
    {
      i := i - 1;
      ghost var rest := out[i + 1..];
      ghost var before := remaining;
      out[i] := remaining % 256;
      remaining := remaining / 256;
      assert out[i..] == [out[i]] + rest;
      OneMoreByte(value, before, rest);
    }
    var bytes := out[..];
    assert out[0..] == bytes;
    BigEndianFits(bytes);
    EncodeDecoded(bytes);
    if remaining != 0 {
      AtLeastOnce(remaining, Power256(byteLength));
      return None;
    }
    r := Some(bytes);
  }

  /** Moving the low byte of what remains to the front of what is written keeps the value. */
  lemma OneMoreByte(value: int, remaining: nat, rest: seq<Byte>)
    requires value == remaining * Power256(|rest|) + BigEndian(rest)
    ensures value == (remaining / 256) * Power256(|rest| + 1) + BigEndian([remaining % 256] + rest)
  {
    BigEndianCons(remaining % 256, rest);
    ShiftByte(remaining, Power256(|rest|));
  }

  lemma NoBytes()
    ensures Power256(0) == 1 && BigEndian([]) == 0
  {
  }

  lemma ShiftByte(n: nat, p: nat)
    ensures n * p == (n / 256) * (256 * p) + (n % 256) * p
  {
    assert n == 256 * (n / 256) + n % 256;
    assert (256 * (n / 256) + n % 256) * p == (n / 256) * (256 * p) + (n % 256) * p;
  }

  lemma AtLeastOnce(n: nat, p: nat)
    requires n > 0
    ensures n * p >= p
  {
    assert n * p == p + (n - 1) * p;
  }

  const WORD: nat := 32

  /** `uintToWord` */
  method UintToWord(value: int) returns (r: Option<seq<Byte>>)
    ensures r.Some? <==> 0 <= value < Power256(WORD)
    ensures r.Some? ==> |r.value| == WORD && BigEndian(r.value) == value
  {
    r := UintBe(value, WORD);
    if r.Some? {
      DecodeEncoded(value, WORD);
    }
  }

  // ----- concatenation -----

  /** `concatBytes`: one buffer of the total length, filled part by part at a running offset. */
  method ConcatBytes(parts: seq<seq<Byte>>) returns (r: seq<Byte>)
    ensures r == Concat(parts)
  {
    var length := 0;
    for i := 0 to |parts|
      invariant length == |Concat(parts[..i])|
    {
      length := length + |parts[i]|;
      assert parts[..i + 1][..i] == parts[..i];
    }
    assert parts[..|parts|] == parts;
    var out := new Byte[length];
    var offset := 0;
    for i := 0 to |parts|
      invariant offset == |Concat(parts[..i])| <= length
      invariant out[..offset] == Concat(parts[..i])
    {
      assert parts[..i + 1][..i] == parts[..i];
      ConcatGrows(parts, i + 1);
      var part := parts[i];
      forall j | 0 <= j < |part| {
        out[offset + j] := part[j];
      }
      assert out[..offset + |part|] == Concat(parts[..i]) + part;
      offset := offset + |part|;
    }
    r := out[..];
    assert out[..length] == r;
  }

  lemma {:induction false} ConcatGrows(parts: seq<seq<Byte>>, i: nat)
    requires i <= |parts|
    ensures |Concat(parts[..i])| <= |Concat(parts)|
    decreases |parts| - i
  {
    if i == |parts| {
      assert parts[..i] == parts;
    } else {
      assert parts[..i + 1][..i] == parts[..i];
      ConcatGrows(parts, i + 1);
    }
  }

  // ----- hex -----

  function Strip0x(value: string): string {
    if "0x" <= value then value[2..] else value
  }

  /** `hexToBytes` with an expected length. */
  function HexToBytes(value: string, length: nat): Option<seq<Byte>> {
    match HexDecode(Strip0x(value))
    case Some(bytes) => if |bytes| == length then Some(bytes) else None
    case None => None
  }

  function Zeros(n: nat): (r: seq<Byte>)
    ensures |r| == n
  {
    seq(n, i requires 0 <= i < n => 0)
  }

  /** A byte string of at most a word, padded on the left to a word. */
  function Padded(bytes: seq<Byte>): (r: seq<Byte>)
    requires |bytes| <= WORD
    ensures |r| == WORD && r[WORD - |bytes|..] == bytes
  {
    Zeros(WORD - |bytes|) + bytes
  }

  /** `addressToWord` at length 20, `bytes32ToWord` at length 32. */
  function HexWord(value: string, length: nat): Option<seq<Byte>>
    requires length <= WORD
  {
    match HexToBytes(value, length)
    case Some(bytes) => Some(Padded(bytes))
    case None => None
  }

  // ----- the static ABI encoding -----

  /** A typed field; `width` is what follows `uint` in the type name, which the encoder does not read. */
  datatype Field =
    | UintField(width: string, value: int)
    | AddressField(hex: string)
    | Bytes32Field(hex: string)
    | OtherField(name: string)

  /** Two fields of the same type. */
  predicate SameType(a: Field, b: Field) {
    match (a, b)
    case (UintField(v, _), UintField(w, _)) => v == w
    case (AddressField(_), AddressField(_)) => true
    case (Bytes32Field(_), Bytes32Field(_)) => true
    case (OtherField(m), OtherField(n)) => m == n
    case _ => false
  }

  /** What a field means: a number or a byte string; nothing when the encoder refuses it. */
  datatype Meaning = Number(n: int) | Bytes(bytes: seq<Byte>) | Nothing

  function MeaningOf(f: Field): Meaning {
    match f
    case UintField(_, value) => if 0 <= value < Power256(WORD) then Number(value) else Nothing
    case AddressField(hex) => if HexToBytes(hex, 20).Some? then Bytes(HexToBytes(hex, 20).value) else Nothing
    case Bytes32Field(hex) => if HexToBytes(hex, WORD).Some? then Bytes(HexToBytes(hex, WORD).value) else Nothing
    case OtherField(_) => Nothing
  }

  function WordOf(f: Field): Option<seq<Byte>> {
    match f
    case UintField(_, value) => UintBytes(value, WORD)
    case AddressField(hex) => HexWord(hex, 20)
    case Bytes32Field(hex) => HexWord(hex, WORD)
    case OtherField(_) => None
  }

  lemma WordExactlyWhenMeaningful(f: Field)
    ensures WordOf(f).Some? <==> !MeaningOf(f).Nothing?
    ensures WordOf(f).Some? ==> |WordOf(f).value| == WORD
  {
  }

  /** Fields of one type with the same word mean the same. */
  lemma WordBindsMeaning(a: Field, b: Field)
    requires SameType(a, b) && WordOf(a).Some? && WordOf(a) == WordOf(b)
    ensures MeaningOf(a) == MeaningOf(b)
  {
    match (a, b) {
      case (UintField(_, m), UintField(_, n)) =>
        DecodeEncoded(m, WORD);
        DecodeEncoded(n, WORD);
      case (AddressField(x), AddressField(y)) =>
        assert WordOf(a).value[WORD - 20..] == HexToBytes(x, 20).value;
        assert WordOf(b).value[WORD - 20..] == HexToBytes(y, 20).value;
      case (Bytes32Field(x), Bytes32Field(y)) =>
        assert WordOf(a).value[0..] == HexToBytes(x, WORD).value;
        assert WordOf(b).value[0..] == HexToBytes(y, WORD).value;
    }
  }

  predicate AllMeaningful(fields: seq<Field>) {
    forall i :: 0 <= i < |fields| ==> !MeaningOf(fields[i]).Nothing?
  }

  function Words(fields: seq<Field>): (r: seq<seq<Byte>>)
    requires AllMeaningful(fields)
    ensures |r| == |fields|
    ensures forall i :: 0 <= i < |fields| ==> Some(r[i]) == WordOf(fields[i]) && |r[i]| == WORD
  {
    if fields == [] then []
    else
      WordExactlyWhenMeaningful(fields[|fields| - 1]);
      Words(fields[..|fields| - 1]) + [WordOf(fields[|fields| - 1]).value]
  }

  /** `abiEncodeStatic`: a word per field, refused exactly when some field is. */
  method AbiEncodeStatic(fields: seq<Field>) returns (r: Option<seq<Byte>>)
    ensures r.Some? <==> AllMeaningful(fields)
    ensures r.Some? ==> r.value == Concat(Words(fields))
  {
    hide WordOf, Words, Concat;
    var encoded: seq<seq<Byte>> := [];
    for i := 0 to |fields|
      invariant |encoded| == i && AllMeaningful(fields[..i])
      invariant encoded == Words(fields[..i])
    {
      var word := EncodeField(fields[i]);
      WordExactlyWhenMeaningful(fields[i]);
      if word.None? {
        return None;
      }
      OneMoreWord(fields, i);
      encoded := encoded + [word.value];
    }
    assert fields[..|fields|] == fields;
    var flat := ConcatBytes(encoded);
    r := Some(flat);
  }

  method EncodeField(f: Field) returns (r: Option<seq<Byte>>)
    ensures r == WordOf(f)
  {
    match f {
      case UintField(_, value) => r := UintBe(value, WORD);
      case AddressField(hex) => r := HexWord(hex, 20);
      case Bytes32Field(hex) => r := HexWord(hex, WORD);
      case OtherField(_) => r := None;
    }
  }

  lemma OneMoreWord(fields: seq<Field>, i: nat)
    requires i < |fields| && AllMeaningful(fields[..i]) && !MeaningOf(fields[i]).Nothing?
    ensures AllMeaningful(fields[..i + 1]) && WordOf(fields[i]).Some?
    ensures Words(fields[..i + 1]) == Words(fields[..i]) + [WordOf(fields[i]).value]
  {
    hide MeaningOf, WordOf;
    WordExactlyWhenMeaningful(fields[i]);
    assert fields[..i + 1][..i] == fields[..i];
  }

  /** Word i of the concatenation is word i. */
  lemma {:induction false} WordAt(words: seq<seq<Byte>>, i: nat)
    requires i < |words| && forall j :: 0 <= j < |words| ==> |words[j]| == WORD
    ensures |Concat(words)| == WORD * |words|
    ensures Concat(words)[WORD * i..WORD * i + WORD] == words[i]
  {
    var n := |words| - 1;
    var most := words[..n];
    if n > 0 {
      WordAt(most, if i < n then i else 0);
    }
    assert |Concat(most)| == WORD * n;
    if i < n {
      assert WORD * i + WORD <= WORD * n;
      assert Concat(words)[WORD * i..WORD * i + WORD] == Concat(most)[WORD * i..WORD * i + WORD];
    }
  }

  /** The encoding is one word per field. */
  lemma EncodingLength(fields: seq<Field>)
    requires AllMeaningful(fields)
    ensures |Concat(Words(fields))| == WORD * |fields|
  {
    if fields != [] {
      WordAt(Words(fields), 0);
    }
  }

  /** For a fixed list of types, equal encodings mean equal decoded values. */
  lemma EncodingBindsMeanings(xs: seq<Field>, ys: seq<Field>)
    requires |xs| == |ys| && forall i :: 0 <= i < |xs| ==> SameType(xs[i], ys[i])
    requires AllMeaningful(xs) && AllMeaningful(ys) && Concat(Words(xs)) == Concat(Words(ys))
    ensures forall i :: 0 <= i < |xs| ==> MeaningOf(xs[i]) == MeaningOf(ys[i])
  {
    hide MeaningOf, WordOf, SameType, Concat;
    forall i | 0 <= i < |xs|
      ensures MeaningOf(xs[i]) == MeaningOf(ys[i])
    {
      WordAt(Words(xs), i);
      WordAt(Words(ys), i);
      WordBindsMeaning(xs[i], ys[i]);
    }
  }

  lemma {:induction false} LeadingZerosMeanNothing(n: nat, bytes: seq<Byte>)
    ensures BigEndian(Zeros(n) + bytes) == BigEndian(bytes)
  {
    if n == 0 {
      assert Zeros(0) + bytes == bytes;
    } else {
      assert Zeros(n) + bytes == [0] + (Zeros(n - 1) + bytes);
      BigEndianCons(0, Zeros(n - 1) + bytes);
      LeadingZerosMeanNothing(n - 1, bytes);
    }
  }

  /**
   * An address or bytes32 field is encoded exactly when it is 40 or 64 hex digits after an optional
   * `0x`, and its word, read as one number, is the number those digits stand for.
   */
  lemma HexFieldWord(f: Field)
    requires f.AddressField? || f.Bytes32Field?
    ensures var (digits, length) := (Strip0x(f.hex), if f.AddressField? then 20 else WORD);
            && (WordOf(f).Some? <==> IsHexOf(digits, length))
            && (IsHexOf(digits, length) ==> |WordOf(f).value| == WORD && BigEndian(WordOf(f).value) == HexValue(digits))
  {
    hide HexDecode, BigEndian, HexValue;
    var (digits, length) := (Strip0x(f.hex), if f.AddressField? then 20 else WORD);
    DecodesExactly(digits, length);
    if IsHexOf(digits, length) {
      HexDecodeMeans(digits, length);
      LeadingZerosMeanNothing(WORD - length, HexDecode(digits).value);
    }
  }

  // ----- the Rust side -----

  /** `abi_uint_word`: sixteen zero bytes, then the sixteen bytes of a 128-bit number. */
  function AbiUintWord(value: nat): seq<Byte>
    requires value <= MAX_U128
  {
    Zeros(16) + ToBytes(value, 16)
  }

  /** `abi_hex_word` */
  function AbiHexWord(value: string, length: nat): Option<seq<Byte>>
    requires length <= WORD
  {
    match HexWordBytes(value, length)
    case Some(bytes) => Some(Padded(bytes))
    case None => None
  }

  lemma {:induction false} LeadingZeros(value: nat, length: nat, extra: nat)
    requires value < Power256(length)
    ensures ToBytes(value, length + extra) == Zeros(extra) + ToBytes(value, length)
    decreases length, extra
  {
    if length == 0 {
      if extra > 0 {
        LeadingZeros(0, 0, extra - 1);
        assert Zeros(extra) == Zeros(extra - 1) + [0];
      }
    } else {
      LeadingZeros(value / 256, length - 1, extra);
      assert Zeros(extra) + ToBytes(value, length) == Zeros(extra) + ToBytes(value / 256, length - 1) + [value % 256];
    }
  }

  lemma Sixteen()
    ensures Power256(16) == MAX_U128 + 1
  {
    assert Power256(4) == 0x1_0000_0000;
    assert Power256(8) == 0x1_0000_0000_0000_0000;
    assert Power256(12) == 0x1_0000_0000_0000_0000_0000_0000;
  }

  /** Both sides give the same word for every number below 2^128. */
  lemma UintWordsAgree(value: nat)
    requires value <= MAX_U128
    ensures UintBytes(value, WORD) == Some(AbiUintWord(value))
  {
    Sixteen();
    LeadingZeros(value, 16, 16);
    PowerGrows(16, WORD);
  }

  lemma {:induction false} PowerGrows(m: nat, n: nat)
    requires m <= n
    ensures Power256(m) <= Power256(n)
    decreases n
  {
    if m < n {
      PowerGrows(m, n - 1);
    }
  }

  /**
   * The two sides read a hex word alike exactly when it starts with `0x` or neither reads it: the
   * JavaScript side also takes bare digits, the Rust side also takes `0X`.
   */
  lemma HexWordsAgree(value: string, length: nat)
    requires 0 < length <= WORD
    ensures HexWord(value, length) == AbiHexWord(value, length) <==>
            "0x" <= value || !(IsHexOf(value, length) || ("0X" <= value && IsHexOf(value[2..], length)))
  {
    hide HexDecode, IsHexOf;
    DecodesExactly(Strip0x(value), length);
    if |value| >= 2 {
      DecodesExactly(value[2..], length);
    }
    if "0X" <= value && !("0x" <= value) {
      NotHex(value, length);
    }
  }

  /** They differ on every address or word written as bare digits. */
  lemma BareWordsDiffer(value: string, length: nat)
    requires (length == 20 || length == WORD) && IsHexOf(value, length)
    ensures HexWord(value, length).Some? && AbiHexWord(value, length).None?
  {
    assert value[1] != 'x' && value[1] != 'X';
    DecodesExactly(value, length);
  }

  /** For instance on the zero address. */
  lemma ZeroAddressDiffers()
    ensures HexWord("0000000000000000000000000000000000000000", 20).Some?
    ensures AbiHexWord("0000000000000000000000000000000000000000", 20).None?
  {
    var zero := "0000000000000000000000000000000000000000";
    assert forall i :: 0 <= i < |zero| ==> zero[i] == '0';
    BareWordsDiffer(zero, 20);
  }

  lemma NotHex(value: string, length: nat)
    requires "0X" <= value
    ensures !IsHexOf(value, length)
  {
    assert value[1] == 'X';
  }
}
