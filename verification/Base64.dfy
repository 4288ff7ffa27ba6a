/** How an API key is stored in a secret: base64 with padding (section 4 of RFC 4648) over its bytes. */
module Base64 {
  import opened Basics

  type Byte = b: int | 0 <= b < 256
  type Index = i: int | 0 <= i < 64

  /** API keys are URL-safe random tokens, so their UTF-8 encoding is one byte per character. */
  predicate Ascii(s: string) {
    forall i :: 0 <= i < |s| ==> s[i] as int < 128
  }

  type ApiKey = s: string | Ascii(s)

  /** The alphabet of Table 1 in section 4 of RFC 4648. */
  function Symbol(i: Index): char {
    if i < 26 then ('A' as int + i) as char
    else if i < 52 then ('a' as int + i - 26) as char
    else if i < 62 then ('0' as int + i - 52) as char
    else if i == 62 then '+'
    else '/'
  }

  const UPPER: string := "ABCDEFGHIJKLMNOPQRSTUVWXYZ"
  const LOWER: string := "abcdefghijklmnopqrstuvwxyz"
  const DIGITS: string := "0123456789"
  const ALPHABET: string := UPPER + LOWER + DIGITS + "+/"

  lemma UpperInOrder(i: nat)
    requires i < 26
    ensures |UPPER| == 26 && UPPER[i] == ('A' as int + i) as char
  {
    assert UPPER[0] == 'A' && UPPER[25] == 'Z';
  }

  lemma LowerInOrder(i: nat)
    requires i < 26
    ensures |LOWER| == 26 && LOWER[i] == ('a' as int + i) as char
  {
    assert LOWER[0] == 'a' && LOWER[25] == 'z';
  }

  lemma DigitsInOrder(i: nat)
    requires i < 10
    ensures |DIGITS| == 10 && DIGITS[i] == ('0' as int + i) as char
  {
    assert DIGITS[0] == '0' && DIGITS[9] == '9';
  }

  /** The symbols are exactly those of the table, in its order. */
  lemma SymbolFollowsTable(i: Index)
    ensures |ALPHABET| == 64 && Symbol(i) == ALPHABET[i]
  {
    if i < 26 {
      UpperInOrder(i);
    } else if i < 52 {
      LowerInOrder(i - 26);
    } else if i < 62 {
      DigitsInOrder(i - 52);
    }
  }

  function Value(c: char): Option<Index> {
    if 'A' <= c <= 'Z' then Some(c as int - 'A' as int)
    else if 'a' <= c <= 'z' then Some(c as int - 'a' as int + 26)
    else if '0' <= c <= '9' then Some(c as int - '0' as int + 52)
    else if c == '+' then Some(62)
    else if c == '/' then Some(63)
    else None
  }

  lemma ValueOfSymbol(i: Index)
    ensures Value(Symbol(i)) == Some(i) && Symbol(i) != '='
  {
  }

  /** Exactly the symbols of the table have a value: their place in it. */
  lemma ValueIsPlace(c: char, i: Index)
    ensures |ALPHABET| == 64 && (Value(c) == Some(i) <==> c == ALPHABET[i])
    ensures c !in ALPHABET ==> Value(c).None?
  {
    SymbolFollowsTable(i);
    if Value(c).Some? {
      SymbolFollowsTable(Value(c).value);
    }
  }

  function Quantum(a: Byte, b: Byte, c: Byte): (q: string)
    ensures |q| == 4
  {
    [Symbol(a / 4), Symbol(a % 4 * 16 + b / 16), Symbol(b % 16 * 4 + c / 64), Symbol(c % 64)]
  }

  function Encode(bytes: seq<Byte>): string {
    if bytes == [] then ""
    else if |bytes| == 1 then Quantum(bytes[0], 0, 0)[..2] + "=="
    else if |bytes| == 2 then Quantum(bytes[0], bytes[1], 0)[..3] + "="
    else Quantum(bytes[0], bytes[1], bytes[2]) + Encode(bytes[3..])
  }

  /** What the decoder has read of the current quantum of four symbols: how many, the bits left over from the
      last one, the padding seen since, and the bytes so far. */
  datatype Scanner = Scanner(pos: nat, left: nat, pads: nat, out: seq<Byte>)
  {
    predicate Valid() {
      && pos < 4
      && left < (if pos == 0 then 1 else if pos == 1 then 64 else if pos == 2 then 16 else 4)
    }
  }

  function Take(s: Scanner, digit: Index): (r: Scanner)
    requires s.Valid()
    ensures r.Valid()
  {
    if s.pos == 0 then Scanner(1, digit, 0, s.out)
    else if s.pos == 1 then Scanner(2, digit % 16, 0, s.out + [s.left * 4 + digit / 16])
    else if s.pos == 2 then Scanner(3, digit % 4, 0, s.out + [s.left * 16 + digit / 4])
    else Scanner(0, 0, 0, s.out + [s.left * 64 + digit])
  }

  /** Lenient scanning: a complete padding ends the text, other characters outside the alphabet are skipped,
      and a quantum that is neither complete nor padded is an error. */
  function Scan(text: string, s: Scanner): Option<seq<Byte>>
    requires s.Valid()
  {
    if text == "" then (if s.pos == 0 then Some(s.out) else None)
    else if text[0] == '=' then
      if s.pos < 2 then Scan(text[1..], s)
      else if s.pos + s.pads + 1 >= 4 then Some(s.out)
      else Scan(text[1..], s.(pads := s.pads + 1))
    else if Value(text[0]).None? then Scan(text[1..], s)
    else Scan(text[1..], Take(s, Value(text[0]).value))
  }

  const READY := Scanner(0, 0, 0, [])

  /** `b64decode`: only ASCII text is accepted at all. */
  function Decode(text: string): Option<seq<Byte>> {
    if Ascii(text) then Scan(text, READY) else None
  }

  /** The numeric value of a symbol, for symbols of the alphabet. */
  function Digit(c: char): int {
    if Value(c).Some? then Value(c).value else 0
  }

  /** A quantum is the 24-bit number of its three bytes, written with four digits in base 64. */
  lemma QuantumIsBase64Number(a: Byte, b: Byte, c: Byte)
    ensures var q := Quantum(a, b, c);
            Digit(q[0]) * 0x4_0000 + Digit(q[1]) * 0x1000 + Digit(q[2]) * 0x40 + Digit(q[3])
            == a * 0x1_0000 + b * 0x100 + c
  {
    hide Symbol, Value;
    ValueOfSymbol(a / 4);
    ValueOfSymbol(a % 4 * 16 + b / 16);
    ValueOfSymbol(b % 16 * 4 + c / 64);
    ValueOfSymbol(c % 64);
  }

  /** How many bytes the last group lacks. */
  function Lacking(bytes: seq<Byte>): nat {
    (3 - |bytes| % 3) % 3
  }

  function Zeros(k: nat): seq<Byte> {
    seq(k, i => 0)
  }

  /** Padding is exact: as many '=' as the last group lacks bytes, all at the end, and before them the
      encoding of the bytes filled up with zeros. */
  lemma {:induction false} PaddingIsExact(bytes: seq<Byte>)
    ensures var text, k, whole := Encode(bytes), Lacking(bytes), Encode(bytes + Zeros(Lacking(bytes)));
            && |text| == |whole| >= k
            && (forall i :: 0 <= i < |text| - k ==> text[i] == whole[i] && text[i] != '=')
            && (forall i :: |text| - k <= i < |text| ==> text[i] == '=')
    decreases |bytes|
  {
    hide Symbol, Value;
    var whole := bytes + Zeros(Lacking(bytes));
    if |bytes| == 0 {
      assert whole == [];
    } else if |bytes| < 3 {
      assert whole[3..] == [];
      QuantumHasNoPadding(bytes[0], if |bytes| == 1 then 0 else bytes[1], 0);
    } else {
      PaddingIsExact(bytes[3..]);
      QuantumHasNoPadding(bytes[0], bytes[1], bytes[2]);
      assert Lacking(bytes) == Lacking(bytes[3..]);
      assert whole[3..] == bytes[3..] + Zeros(Lacking(bytes));
    }
  }

  lemma QuantumHasNoPadding(a: Byte, b: Byte, c: Byte)
    ensures forall i :: 0 <= i < 4 ==> Quantum(a, b, c)[i] != '='
  {
    hide Symbol, Value;
    ValueOfSymbol(a / 4);
    ValueOfSymbol(a % 4 * 16 + b / 16);
    ValueOfSymbol(b % 16 * 4 + c / 64);
    ValueOfSymbol(c % 64);
  }

  /** Encoding produces whole quanta: the padded length of section 4 of RFC 4648. */
  lemma {:induction false} EncodedLength(bytes: seq<Byte>)
    ensures |Encode(bytes)| == 4 * ((|bytes| + 2) / 3)
  {
    if |bytes| <= 2 {
    } else {
      EncodedLength(bytes[3..]);
      assert (|bytes| - 3 + 2) / 3 + 1 == (|bytes| + 2) / 3;
    }
  }

  /** The four six-bit digits determine the three bytes. */
  lemma DigitsDetermineBytes(a: Byte, b: Byte, c: Byte)
    ensures a / 4 * 4 + (a % 4 * 16 + b / 16) / 16 == a
    ensures (a % 4 * 16 + b / 16) % 16 * 16 + (b % 16 * 4 + c / 64) / 4 == b
    ensures (b % 16 * 4 + c / 64) % 4 * 64 + c % 64 == c
  {
    assert (a % 4 * 16 + b / 16) / 16 == a % 4;
    assert (a % 4 * 16 + b / 16) % 16 == b / 16;
    assert (b % 16 * 4 + c / 64) / 4 == b % 16;
    assert (b % 16 * 4 + c / 64) % 4 == c / 64;
  }

  /** Scanning one symbol from the table. */
  lemma ScanSymbol(i: Index, text: string, s: Scanner)
    requires s.Valid()
    ensures Scan([Symbol(i)] + text, s) == Scan(text, Take(s, i))
  {
    ValueOfSymbol(i);
    assert ([Symbol(i)] + text)[1..] == text;
  }

  lemma ScanTwo(i: Index, j: Index, text: string, out: seq<Byte>)
    requires i * 4 + j / 16 < 256
    ensures Scan([Symbol(i), Symbol(j)] + text, Scanner(0, 0, 0, out))
            == Scan(text, Scanner(2, j % 16, 0, out + [i * 4 + j / 16]))
  {
    hide Scan, Symbol;
    assert [Symbol(i), Symbol(j)] + text == [Symbol(i)] + ([Symbol(j)] + text);
    ScanSymbol(i, [Symbol(j)] + text, Scanner(0, 0, 0, out));
    ScanSymbol(j, text, Scanner(1, i, 0, out));
  }

  lemma ScanQuantum(a: Byte, b: Byte, c: Byte, text: string, out: seq<Byte>)
    ensures Scan(Quantum(a, b, c) + text, Scanner(0, 0, 0, out)) == Scan(text, Scanner(0, 0, 0, out + [a, b, c]))
  {
    hide Scan, Symbol;
    DigitsDetermineBytes(a, b, c);
    var i, j, k, l := a / 4, a % 4 * 16 + b / 16, b % 16 * 4 + c / 64, c % 64;
    assert Quantum(a, b, c) + text == [Symbol(i), Symbol(j)] + ([Symbol(k)] + ([Symbol(l)] + text));
    ScanTwo(i, j, [Symbol(k)] + ([Symbol(l)] + text), out);
    ScanSymbol(k, [Symbol(l)] + text, Scanner(2, j % 16, 0, out + [a]));
    ScanSymbol(l, text, Scanner(3, k % 4, 0, out + [a] + [b]));
    assert out + [a] + [b] + [c] == out + [a, b, c];
  }

  lemma ScanOneByte(a: Byte, text: string, out: seq<Byte>)
    ensures Scan(Quantum(a, 0, 0)[..2] + "==" + text, Scanner(0, 0, 0, out)) == Some(out + [a])
  {
    DigitsDetermineBytes(a, 0, 0);
    var i, j := a / 4, a % 4 * 16;
    assert Quantum(a, 0, 0)[..2] + "==" + text == [Symbol(i), Symbol(j)] + ("==" + text);
    ScanTwo(i, j, "==" + text, out);
    assert ("==" + text)[1..] == "=" + text;
  }

  lemma ScanTwoBytes(a: Byte, b: Byte, text: string, out: seq<Byte>)
    ensures Scan(Quantum(a, b, 0)[..3] + "=" + text, Scanner(0, 0, 0, out)) == Some(out + [a, b])
  {
    DigitsDetermineBytes(a, b, 0);
    var i, j, k := a / 4, a % 4 * 16 + b / 16, b % 16 * 4;
    assert Quantum(a, b, 0)[..3] + "=" + text == [Symbol(i), Symbol(j)] + ([Symbol(k)] + ("=" + text));
    ScanTwo(i, j, [Symbol(k)] + ("=" + text), out);
    ScanSymbol(k, "=" + text, Scanner(2, j % 16, 0, out + [a]));
    assert out + [a] + [b] == out + [a, b];
  }

  /** Scanning an encoding yields its bytes; what follows is scanned on if there is no padding, and ignored
      if there is. */
  lemma {:induction false} ScanEncoded(bytes: seq<Byte>, text: string, out: seq<Byte>)
    ensures Scan(Encode(bytes) + text, Scanner(0, 0, 0, out))
            == if |bytes| % 3 == 0 then Scan(text, Scanner(0, 0, 0, out + bytes)) else Some(out + bytes)
    decreases |bytes|
  {
    hide Scan, Quantum;
    if bytes == [] {
      assert Encode(bytes) + text == text && out + bytes == out;
    } else if |bytes| == 1 {
      ScanOneByte(bytes[0], text, out);
      assert bytes == [bytes[0]];
    } else if |bytes| == 2 {
      ScanTwoBytes(bytes[0], bytes[1], text, out);
      assert bytes == [bytes[0], bytes[1]];
    } else {
      var group, rest := [bytes[0], bytes[1], bytes[2]], bytes[3..];
      assert bytes == group + rest && out + bytes == out + group + rest;
      assert Encode(bytes) + text == Quantum(bytes[0], bytes[1], bytes[2]) + (Encode(rest) + text);
      ScanQuantum(bytes[0], bytes[1], bytes[2], Encode(rest) + text, out);
      ScanEncoded(rest, text, out + group);
    }
  }

  lemma {:induction false} EncodedIsAscii(bytes: seq<Byte>)
    ensures Ascii(Encode(bytes))
    decreases |bytes|
  {
    if |bytes| <= 2 {
    } else {
      EncodedIsAscii(bytes[3..]);
    }
  }

  /** Decoding an encoded byte string gives it back. */
  lemma RoundTrip(bytes: seq<Byte>)
    ensures Decode(Encode(bytes)) == Some(bytes)
  {
    hide Encode;
    EncodedIsAscii(bytes);
    ScanEncoded(bytes, "", []);
    assert Encode(bytes) + "" == Encode(bytes) && [] + bytes == bytes;
  }

  // ---------- Other texts ----------

  /** Whatever follows the padding is ignored. */
  lemma PaddingEndsText(bytes: seq<Byte>, tail: string)
    requires |bytes| % 3 != 0 && Ascii(tail)
    ensures Decode(Encode(bytes) + tail) == Some(bytes)
  {
    hide Encode, Scan;
    EncodedIsAscii(bytes);
    ScanEncoded(bytes, tail, []);
    assert [] + bytes == bytes;
  }

  lemma {:induction false} ForeignIsSkipped(text: string, c: char, tail: string, s: Scanner)
    requires s.Valid() && c != '=' && c !in ALPHABET
    ensures Scan(text + [c] + tail, s) == Scan(text + tail, s)
    decreases |text|
  {
    if text == "" {
      ValueIsPlace(c, 0);
      assert (text + [c] + tail)[1..] == tail && text + tail == tail;
    } else {
      var rest := text[1..];
      assert (text + [c] + tail)[1..] == rest + [c] + tail && (text + tail)[1..] == rest + tail;
      assert (text + [c] + tail)[0] == text[0] == (text + tail)[0];
      if text[0] == '=' {
        if s.pos < 2 {
          ForeignIsSkipped(rest, c, tail, s);
        } else if s.pos + s.pads + 1 < 4 {
          ForeignIsSkipped(rest, c, tail, s.(pads := s.pads + 1));
        }
      } else {
        ForeignIsSkipped(rest, c, tail, if Value(text[0]).None? then s else Take(s, Value(text[0]).value));
      }
    }
  }

  /** ASCII characters outside the alphabet, other than padding, do not matter anywhere. */
  lemma ForeignCharactersAreSkipped(text: string, c: char, tail: string)
    requires c != '=' && c !in ALPHABET && c as int < 128
    ensures Decode(text + [c] + tail) == Decode(text + tail)
  {
    hide Scan;
    ForeignIsSkipped(text, c, tail, READY);
    assert Ascii(text + [c] + tail) <==> Ascii(text + tail) by {
      AsciiParts(text + [c], tail);
      AsciiParts(text, [c]);
      AsciiParts(text, tail);
    }
  }

  lemma AsciiParts(a: string, b: string)
    ensures Ascii(a + b) <==> Ascii(a) && Ascii(b)
  {
    if Ascii(a + b) {
      assert forall i :: 0 <= i < |a| ==> a[i] == (a + b)[i];
      assert forall i :: 0 <= i < |b| ==> b[i] == (a + b)[|a| + i];
    }
  }

  lemma ScanEarlyPadding(symbol: string, tail: string, out: seq<Byte>)
    requires symbol == "" || (|symbol| == 1 && Value(symbol[0]).Some?)
    ensures Scan(symbol + "=" + tail, Scanner(0, 0, 0, out)) == Scan(symbol + tail, Scanner(0, 0, 0, out))
  {
    assert ("=" + tail)[1..] == tail;
    if symbol == "" {
      assert symbol + "=" + tail == "=" + tail && symbol + tail == tail;
    } else {
      assert (symbol + "=" + tail)[1..] == "=" + tail && (symbol + tail)[1..] == tail;
    }
  }

  /** Padding before two symbols of a quantum is ignored too. */
  lemma EarlyPaddingIsSkipped(bytes: seq<Byte>, symbol: string, tail: string)
    requires |bytes| % 3 == 0 && Ascii(tail)
    requires symbol == "" || (|symbol| == 1 && Value(symbol[0]).Some?)
    ensures Decode(Encode(bytes) + (symbol + "=" + tail)) == Decode(Encode(bytes) + (symbol + tail))
  {
    hide Scan, Encode, Ascii;
    var padded, plain := symbol + "=" + tail, symbol + tail;
    AsciiParts(symbol + "=", tail);
    AsciiParts(symbol, "=");
    AsciiParts(symbol, tail);
    AsciiParts(Encode(bytes), padded);
    AsciiParts(Encode(bytes), plain);
    OneEqualsIsAscii();
    ScanEncoded(bytes, padded, []);
    ScanEncoded(bytes, plain, []);
    ScanEarlyPadding(symbol, tail, [] + bytes);
  }

  lemma OneEqualsIsAscii()
    ensures Ascii("=")
  {
  }

  lemma NonAsciiIsRefused(text: string, i: nat)
    requires i < |text| && text[i] as int >= 128
    ensures Decode(text).None?
  {
  }

  lemma {:induction false} ScanCounts(text: string, s: Scanner)
    requires s.Valid() && forall i :: 0 <= i < |text| ==> Value(text[i]).Some?
    ensures Scan(text, s).Some? <==> (s.pos + |text|) % 4 == 0
    decreases |text|
  {
    if text == "" {
    } else {
      assert Value(text[0]).Some?;
      ScanCounts(text[1..], Take(s, Value(text[0]).value));
    }
  }

  /** Symbols without padding are decoded exactly if they make up whole quanta. */
  lemma UnpaddedQuantaMustBeWhole(text: string)
    requires forall i :: 0 <= i < |text| ==> Value(text[i]).Some?
    ensures Decode(text).Some? <==> |text| % 4 == 0
  {
    ScanCounts(text, READY);
  }

  lemma OneByteCut(a: Byte, pad: string, out: seq<Byte>)
    requires pad == "" || pad == "="
    ensures Scan(Quantum(a, 0, 0)[..2] + pad, Scanner(0, 0, 0, out)).None?
  {
    DigitsDetermineBytes(a, 0, 0);
    ScanTwo(a / 4, a % 4 * 16, pad, out);
    assert Quantum(a, 0, 0)[..2] == [Symbol(a / 4), Symbol(a % 4 * 16)];
    assert "="[1..] == "";
  }

  lemma TwoBytesCut(a: Byte, b: Byte, out: seq<Byte>)
    ensures Scan(Quantum(a, b, 0)[..3], Scanner(0, 0, 0, out)).None?
  {
    DigitsDetermineBytes(a, b, 0);
    var i, j, k := a / 4, a % 4 * 16 + b / 16, b % 16 * 4;
    ScanTwo(i, j, [Symbol(k)], out);
    assert Quantum(a, b, 0)[..3] == [Symbol(i), Symbol(j)] + [Symbol(k)];
    ScanSymbol(k, "", Scanner(2, j % 16, 0, out + [a]));
    assert [Symbol(k)] + "" == [Symbol(k)];
  }

  /** Padding that is cut short is an error. */
  lemma {:induction false} CutPaddingFails(bytes: seq<Byte>, cut: nat, out: seq<Byte>)
    requires 1 <= cut <= Lacking(bytes)
    ensures cut <= |Encode(bytes)|
    ensures Scan(Encode(bytes)[..|Encode(bytes)| - cut], Scanner(0, 0, 0, out)).None?
    decreases |bytes|
  {
    hide Scan, Quantum;
    if |bytes| == 1 {
      var pad := if cut == 1 then "=" else "";
      OneByteCut(bytes[0], pad, out);
      assert Encode(bytes)[..4 - cut] == Quantum(bytes[0], 0, 0)[..2] + pad;
    } else if |bytes| == 2 {
      TwoBytesCut(bytes[0], bytes[1], out);
      assert Encode(bytes)[..3] == Quantum(bytes[0], bytes[1], 0)[..3];
    } else {
      var group, rest := [bytes[0], bytes[1], bytes[2]], bytes[3..];
      CutPaddingFails(rest, cut, out + group);
      ScanQuantum(bytes[0], bytes[1], bytes[2], Encode(rest)[..|Encode(rest)| - cut], out);
      assert Encode(bytes)[..|Encode(bytes)| - cut]
          == Quantum(bytes[0], bytes[1], bytes[2]) + Encode(rest)[..|Encode(rest)| - cut];
    }
  }

  lemma PaddingMustBeComplete(bytes: seq<Byte>, cut: nat)
    requires 1 <= cut <= Lacking(bytes)
    ensures cut <= |Encode(bytes)| && Decode(Encode(bytes)[..|Encode(bytes)| - cut]).None?
  {
    CutPaddingFails(bytes, cut, []);
  }

  function KeyBytes(key: ApiKey): seq<Byte> {
    seq(|key|, i requires 0 <= i < |key| => key[i] as int)
  }

  function KeyText(bytes: seq<Byte>): Option<ApiKey> {
    if forall i :: 0 <= i < |bytes| ==> bytes[i] < 128
    then Some(seq(|bytes|, i requires 0 <= i < |bytes| => bytes[i] as char))
    else None
  }

  /** The `api-key` entry written into a secret. */
  function EncodeKey(key: ApiKey): string {
    Encode(KeyBytes(key))
  }

  function DecodeKey(text: string): Option<ApiKey> {
    var bytes := Decode(text);
    if bytes.None? then None else KeyText(bytes.value)
  }

  lemma KeyRoundTrip(key: ApiKey)
    ensures DecodeKey(EncodeKey(key)) == Some(key)
  {
    var bytes := KeyBytes(key);
    RoundTrip(bytes);
    assert seq(|bytes|, i requires 0 <= i < |bytes| => bytes[i] as char) == key;
  }
}
