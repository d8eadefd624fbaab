/** `mac.rs`: Bluetooth addresses as text. */
module Mac {
  import opened Text

  datatype MacError = InvalidFormat | InvalidHex | Zero
  datatype MacResult = Ok(addr: nat) | Err(error: MacError)

  predicate IsHex(c: char) {
    '0' <= c <= '9' || 'A' <= c <= 'F' || 'a' <= c <= 'f'
  }

  /** `hex_nibble`; the callers reject characters that are not hex digits. */
  function Nibble(c: char): nat {
    if '0' <= c <= '9' then c as int - 48
    else if 'A' <= c <= 'F' then c as int - 55
    else if 'a' <= c <= 'f' then c as int - 87
    else 0
  }

  /** `hex_digit`: uppercase. */
  function HexDigit(v: nat): char
    requires v < 16
  {
    if v < 10 then (48 + v) as char else (55 + v) as char
  }

  function Lower(c: char): char {
    if 'A' <= c <= 'Z' then (c as int + 32) as char else c
  }

  function Upper(c: char): char {
    if 'a' <= c <= 'z' then (c as int - 32) as char else c
  }

  lemma DigitFacts(v: nat)
    requires v < 16
    ensures IsHex(HexDigit(v)) && Nibble(HexDigit(v)) == v
    ensures IsHex(Lower(HexDigit(v))) && Nibble(Lower(HexDigit(v))) == v
  {
  }

  lemma NibbleFacts(c: char)
    requires IsHex(c)
    ensures Nibble(c) < 16 && HexDigit(Nibble(c)) == Upper(c)
  {
  }

  predicate AllHex(s: string) {
    forall i :: 0 <= i < |s| ==> IsHex(s[i])
  }

  /** The number denoted by the first `k` digits, most significant first. */
  function HexValue(s: string, k: nat): nat
    requires k <= |s|
  {
    if k == 0 then 0 else 16 * HexValue(s, k - 1) + Nibble(s[k - 1])
  }

  /** `a >> (4 * k)`. */
  function Shr(a: nat, k: nat): nat {
    if k == 0 then a else Shr(a, k - 1) / 16
  }

  function Pow16(k: nat): nat {
    if k == 0 then 1 else 16 * Pow16(k - 1)
  }

  predicate Is48Bit(a: nat) {
    a < 0x1_0000_0000_0000
  }

  /** The twelve uppercase digits of the low 48 bits. */
  function HexDigits(a: nat): (s: string)
    ensures |s| == 12
  {
    seq(12, k requires 0 <= k < 12 => HexDigit(Shr(a, 11 - k) % 16))
  }

  function UpperAll(s: string): string {
    seq(|s|, i requires 0 <= i < |s| => Upper(s[i]))
  }

  /** `AA:BB:CC:DD:EE:FF` from twelve digits, and back. */
  function Colons(d: string): (s: string)
    requires |d| == 12
    ensures |s| == 17
  {
    seq(17, i requires 0 <= i < 17 => if i % 3 == 2 then ':' else d[i / 3 * 2 + i % 3])
  }

  function Digits(b: string): (d: string)
    requires |b| == 17
    ensures |d| == 12
  {
    seq(12, k requires 0 <= k < 12 => b[k / 2 * 3 + k % 2])
  }

  predicate Separated(b: string)
    requires |b| == 17
  {
    forall g :: 0 <= g < 5 ==> b[3 * g + 2] == ':' || b[3 * g + 2] == '-'
  }

  function NonZero(v: nat): MacResult {
    if v == 0 then Err(Zero) else Ok(v)
  }

  /** Which bytes are an address, and which one. */
  function ParseBytes(b: string): MacResult {
    if |b| == 12 && AllHex(b) then NonZero(HexValue(b, 12))
    else if |b| != 17 || !Separated(b) then Err(InvalidFormat)
    else if !AllHex(Digits(b)) then Err(InvalidHex)
    else NonZero(HexValue(Digits(b), 12))
  }

  lemma {:induction false} ValueBelow(s: string, k: nat)
    requires k <= |s| && AllHex(s)
    ensures HexValue(s, k) < Pow16(k)
    decreases k
  {
    if k > 0 {
      NibbleFacts(s[k - 1]);
      ValueBelow(s, k - 1);
    }
  }

  lemma Pow16Twelve()
    ensures Pow16(12) == 0x1_0000_0000_0000
  {
    assert Pow16(4) == 0x1_0000;
    assert Pow16(8) == 0x1_0000_0000;
  }

  // The loop's step: two digits at once.
  lemma TwoMore(s: string, k: nat)
    requires k + 2 <= |s|
    ensures HexValue(s, k + 2) == 256 * HexValue(s, k) + 16 * Nibble(s[k]) + Nibble(s[k + 1])
  {
    assert HexValue(s, k + 1) == 16 * HexValue(s, k) + Nibble(s[k]);
  }

  /** `parse_mac`. The accumulator never leaves 48 bits. */
  method ParseMac(s: string) returns (r: MacResult)
    ensures r == ParseBytes(Bytes(s))
    ensures r.Ok? ==> Is48Bit(r.addr)
  {
    var b := Bytes(s);
    if |b| == 12 && AllHex(b) {
      r := ParsePlain(b);
      return;
    }
    if |b| != 17 { return Err(InvalidFormat); }
    if !Separated(b) { return Err(InvalidFormat); }
    r := ParseGroups(b);
  }

  /** The pairs of `parse_mac`'s form without separators. */
  method ParsePlain(b: string) returns (r: MacResult)
    requires |b| == 12 && AllHex(b)
    ensures r == NonZero(HexValue(b, 12))
    ensures r.Ok? ==> Is48Bit(r.addr)
  {
    var mac, k := 0, 0;
    while k < 12
      invariant 0 <= k <= 12 && k % 2 == 0
      invariant mac == HexValue(b, k)
    {
      TwoMore(b, k);
      mac := mac * 256 + Nibble(b[k]) * 16 + Nibble(b[k + 1]);
      k := k + 2;
    }
    ValueBelow(b, 12);
    Pow16Twelve();
    r := if mac == 0 then Err(Zero) else Ok(mac);
  }

  lemma GroupDigits(b: string, i: nat)
    requires |b| == 17 && i < 6
    ensures Digits(b)[2 * i] == b[i * 3] && Digits(b)[2 * i + 1] == b[i * 3 + 1]
  {
  }

  /** The six groups of `parse_mac`'s separated form. */
  method ParseGroups(b: string) returns (r: MacResult)
    requires |b| == 17
    ensures r == if AllHex(Digits(b)) then NonZero(HexValue(Digits(b), 12)) else Err(InvalidHex)
    ensures r.Ok? ==> Is48Bit(r.addr)
  {
    ghost var d := Digits(b);
    var mac, i := 0, 0;
    while i < 6
      invariant 0 <= i <= 6
      invariant forall k :: 0 <= k < 2 * i ==> IsHex(d[k])
      invariant mac == HexValue(d, 2 * i)
    {
      GroupDigits(b, i);
      if !IsHex(b[i * 3]) || !IsHex(b[i * 3 + 1]) { return Err(InvalidHex); }
      TwoMore(d, 2 * i);
      mac := mac * 256 + Nibble(b[i * 3]) * 16 + Nibble(b[i * 3 + 1]);
      i := i + 1;
    }
    ValueBelow(d, 12);
    Pow16Twelve();
    if mac == 0 { return Err(Zero); }
    r := Ok(mac);
  }

  // Byte `i` of the address is the digits `2 * i` and `2 * i + 1`.
  lemma ByteDigits(a: nat, i: nat)
    requires i < 6
    ensures var b := Shr(a, 10 - 2 * i) % 256;
            b / 16 == Shr(a, 11 - 2 * i) % 16 && b % 16 == Shr(a, 10 - 2 * i) % 16
  {
    var x := Shr(a, 10 - 2 * i);
    assert Shr(a, 11 - 2 * i) == x / 16;
    assert x % 256 == x / 16 % 16 * 16 + x % 16;
  }

  function Format(addr: nat): string {
    Colons(HexDigits(addr))
  }

  /** `format_mac`. */
  method FormatMac(addr: nat) returns (out: string)
    ensures out == Format(addr)
  {
    out := "";
    ghost var full := Format(addr);
    var i := 0;
    while i < 6
      invariant 0 <= i <= 6
      invariant |out| == if i == 6 then 17 else 3 * i
      invariant forall j :: 0 <= j < |out| ==> out[j] == full[j]
    {
      var b := Shr(addr, 10 - 2 * i) % 256;
      ByteDigits(addr, i);
      out := out + [HexDigit(b / 16), HexDigit(b % 16)];
      if i < 5 {
        out := out + [':'];
      }
      i := i + 1;
    }
  }

  function Hex12(addr: nat): (s: string)
    ensures |s| == 12
  {
    seq(12, k requires 0 <= k < 12 => Lower(HexDigits(addr)[k]))
  }

  /** `mac_hex12`, filling its buffer in place. */
  method MacHex12(addr: nat) returns (out: array<char>)
    ensures fresh(out) && out[..] == Hex12(addr)
  {
    out := new char[12](_ => '0');
    var i := 0;
    while i < 6
      invariant 0 <= i <= 6
      invariant forall k :: 0 <= k < 2 * i ==> out[k] == Hex12(addr)[k]
    {
      var b := Shr(addr, 10 - 2 * i) % 256;
      ByteDigits(addr, i);
      out[i * 2] := Lower(HexDigit(b / 16));
      out[i * 2 + 1] := Lower(HexDigit(b % 16));
      i := i + 1;
    }
  }

  lemma {:induction false} ShiftedOut(a: nat, k: nat)
    requires a < Pow16(k)
    ensures Shr(a, k) == 0
  {
    ShiftBelow(a, k, k);
  }

  lemma {:induction false} ShiftBelow(a: nat, j: nat, k: nat)
    requires a < Pow16(k) && j <= k
    ensures Shr(a, j) < Pow16(k - j)
    decreases j
  {
    if j > 0 {
      ShiftBelow(a, j - 1, k);
      assert Pow16(k - (j - 1)) == 16 * Pow16(k - j);
    }
  }

  // Reading back any string whose digits are those of `a`.
  lemma {:induction false} DigitsValue(a: nat, s: string, k: nat)
    requires Is48Bit(a) && |s| == 12 && k <= 12
    requires forall j :: 0 <= j < 12 ==> Nibble(s[j]) == Shr(a, 11 - j) % 16
    ensures HexValue(s, k) == Shr(a, 12 - k)
    decreases k
  {
    if k == 0 {
      Pow16Twelve();
      ShiftedOut(a, 12);
    } else {
      DigitsValue(a, s, k - 1);
      assert Shr(a, 12 - (k - 1)) == Shr(a, 12 - k) / 16;
    }
  }

  lemma AsciiText(s: string)
    requires forall i :: 0 <= i < |s| ==> IsHex(s[i]) || s[i] == ':' || s[i] == '-'
    ensures Bytes(s) == s
  {
    AsciiBytes(s);
  }

  // Any twelve hex digits spelling `a`, in either case.
  predicate Spells(d: string, a: nat) {
    |d| == 12 && AllHex(d) && forall j :: 0 <= j < 12 ==> Nibble(d[j]) == Shr(a, 11 - j) % 16
  }

  lemma PrintedDigits(a: nat)
    ensures Spells(HexDigits(a), a) && Spells(Hex12(a), a)
  {
    forall k | 0 <= k < 12
      ensures IsHex(HexDigits(a)[k]) && Nibble(HexDigits(a)[k]) == Shr(a, 11 - k) % 16
      ensures IsHex(Hex12(a)[k]) && Nibble(Hex12(a)[k]) == Shr(a, 11 - k) % 16
    {
      DigitFacts(Shr(a, 11 - k) % 16);
    }
  }

  // Where the `k`-th digit stands between the colons.
  lemma DigitPlace(k: nat) returns (i: nat)
    requires k < 12
    ensures i < 17 && i == k / 2 * 3 + k % 2 && i % 3 == k % 2 && i / 3 == k / 2
  {
    i := k / 2 * 3 + k % 2;
  }

  lemma ColonsText(d: string)
    requires |d| == 12 && AllHex(d)
    ensures Bytes(Colons(d)) == Colons(d)
  {
    forall i | 0 <= i < 17 ensures IsHex(Colons(d)[i]) || Colons(d)[i] == ':' {
      if i % 3 != 2 {
        assert Colons(d)[i] == d[i / 3 * 2 + i % 3];
      }
    }
    AsciiText(Colons(d));
  }

  lemma ColonsSeparated(d: string)
    requires |d| == 12
    ensures Separated(Colons(d))
  {
    forall g | 0 <= g < 5 ensures Colons(d)[3 * g + 2] == ':' {
      assert (3 * g + 2) % 3 == 2;
    }
  }

  lemma DigitsOfColons(d: string)
    requires |d| == 12 && AllHex(d)
    ensures Digits(Colons(d)) == d && Separated(Colons(d)) && Bytes(Colons(d)) == Colons(d)
  {
    ColonsText(d);
    ColonsSeparated(d);
    forall k | 0 <= k < 12 ensures Digits(Colons(d))[k] == d[k] {
      var i := DigitPlace(k);
      assert Colons(d)[i] == d[i / 3 * 2 + i % 3];
    }
  }

  lemma SpelledValue(d: string, a: nat)
    requires Is48Bit(a) && Spells(d, a)
    ensures HexValue(d, 12) == a && Bytes(d) == d
  {
    DigitsValue(a, d, 12);
    assert Shr(a, 12 - 12) == a;
    AsciiText(d);
  }

  /** Both printed forms of an address parse back to it; zero is refused. */
  lemma {:induction false} PrintedAddressParsesBack(a: nat)
    requires Is48Bit(a)
    ensures ParseBytes(Bytes(Format(a))) == NonZero(a)
    ensures ParseBytes(Bytes(Hex12(a))) == NonZero(a)
  {
    PrintedDigits(a);
    SpelledValue(HexDigits(a), a);
    SpelledValue(Hex12(a), a);
    DigitsOfColons(HexDigits(a));
  }

  /** The digits of an accepted spelling, whichever it is. */
  function DigitsOf(b: string): string {
    if |b| == 17 then Digits(b) else b
  }

  lemma {:induction false} ValueShifts(d: string, k: nat)
    requires AllHex(d) && |d| == 12 && k <= 12
    ensures Shr(HexValue(d, 12), k) == HexValue(d, 12 - k)
    decreases k
  {
    if k > 0 {
      ValueShifts(d, k - 1);
      NibbleFacts(d[12 - k]);
      assert HexValue(d, 12 - (k - 1)) == 16 * HexValue(d, 12 - k) + Nibble(d[12 - k]);
    }
  }

  lemma DigitOfValue(d: string, k: nat)
    requires AllHex(d) && |d| == 12 && k < 12
    ensures HexDigit(Shr(HexValue(d, 12), 11 - k) % 16) == Upper(d[k])
  {
    ValueShifts(d, 11 - k);
    NibbleFacts(d[k]);
    LastDigit(HexValue(d, k), Nibble(d[k]));
  }

  lemma LastDigit(q: nat, r: nat)
    requires r < 16
    ensures (16 * q + r) % 16 == r && (16 * q + r) / 16 == q
  {
  }

  lemma DigitByDigit(d: string, a: nat)
    requires |d| == 12 && forall k :: 0 <= k < 12 ==> HexDigits(a)[k] == Upper(d[k])
    ensures HexDigits(a) == UpperAll(d)
  {
  }

  lemma DigitsOfValue(d: string)
    requires AllHex(d) && |d| == 12
    ensures HexDigits(HexValue(d, 12)) == UpperAll(d)
  {
    var a := HexValue(d, 12);
    forall k | 0 <= k < 12 ensures HexDigits(a)[k] == Upper(d[k]) {
      DigitOfValue(d, k);
    }
    DigitByDigit(d, a);
  }

  /** Parsing then printing normalises: uppercase digits, colons between bytes. */
  lemma AcceptedAddressNormalises(s: string)
    requires ParseBytes(Bytes(s)).Ok?
    ensures |DigitsOf(Bytes(s))| == 12
    ensures Format(ParseBytes(Bytes(s)).addr) == Colons(UpperAll(DigitsOf(Bytes(s))))
  {
    DigitsOfValue(DigitsOf(Bytes(s)));
  }

  // What an accepted address is made of.
  predicate AddressChar(c: char) {
    IsHex(c) || c == ':' || c == '-'
  }

  lemma AcceptedBytes(b: string)
    requires ParseBytes(b).Ok?
    ensures b != "" && forall i :: 0 <= i < |b| ==> AddressChar(b[i])
  {
    if |b| == 17 {
      var d := Digits(b);
      forall i | 0 <= i < 17 ensures AddressChar(b[i]) {
        if i % 3 == 2 {
          assert i == 3 * (i / 3) + 2;
        } else {
          var k := i / 3 * 2 + i % 3;
          assert d[k] == b[k / 2 * 3 + k % 2] == b[i];
        }
      }
    }
  }

  lemma HighOrAscii(s: string)
    ensures IsAscii(s) || exists i :: 0 <= i < |Bytes(s)| && (Bytes(s)[i] as int) >= 128
  {
    if !IsAscii(s) {
      SomeHighByte(s);
    }
  }

  lemma {:induction false} SomeHighByte(s: string)
    requires !IsAscii(s)
    ensures exists i :: 0 <= i < |Bytes(s)| && (Bytes(s)[i] as int) >= 128
  {
    var c, rest := CharBytes(s[0]), s[1..];
    if (s[0] as int) >= 128 {
      assert c[0] in c && Bytes(s)[0] == c[0];
    } else {
      var i :| 0 <= i < |s| && (s[i] as int) >= 128;
      assert rest[i - 1] == s[i];
      SomeHighByte(rest);
      var j :| 0 <= j < |Bytes(rest)| && (Bytes(rest)[j] as int) >= 128;
      assert Bytes(s)[|c| + j] == Bytes(rest)[j];
    }
  }

  // -------------------------------------------------------------------------
  // Character by character
  // -------------------------------------------------------------------------

  const HEX := "0123456789abcdefABCDEF"
  const LOWER := "0123456789abcdef"
  const UPPER := "0123456789ABCDEF"

  lemma HexChars(c: char)
    ensures IsHex(c) <==> c in HEX
    ensures IsHex(c) ==> (Nibble(c) == 0 <==> c == '0')
  {
    assert HEX == LOWER + "ABCDEF";
    if IsHex(c) {
      assert c == HEX[if c <= '9' then c as int - 48 else if c <= 'F' then c as int - 49 else c as int - 87];
    }
  }

  lemma DigitChars(v: nat)
    requires v < 16
    ensures HexDigit(v) == UPPER[v] && Lower(HexDigit(v)) == LOWER[v]
  {
  }

  lemma {:induction false} ZeroValue(d: string, k: nat)
    requires k <= |d| && AllHex(d)
    ensures HexValue(d, k) == 0 <==> forall i :: 0 <= i < k ==> d[i] == '0'
    decreases k
  {
    if k > 0 {
      ZeroValue(d, k - 1);
      HexChars(d[k - 1]);
    }
  }

  /** Twelve characters, or six pairs with a colon or a dash between them. */
  predicate Grouped(b: string) {
    |b| == 17 && forall i :: 0 <= i < 17 && i % 3 == 2 ==> b[i] == ':' || b[i] == '-'
  }

  /** The characters of an address that are not separators. */
  ghost predicate DigitAt(b: string, i: int) {
    0 <= i < |b| && (|b| == 12 || i % 3 != 2)
  }

  ghost predicate Hexadecimal(b: string) {
    forall i :: DigitAt(b, i) ==> b[i] in HEX
  }

  // Where the character at `i` is among the digits, and back.
  lemma AmongDigits(b: string, i: int) returns (k: nat)
    requires (|b| == 12 || |b| == 17) && DigitAt(b, i)
    ensures k < 12 && DigitsOf(b)[k] == b[i]
  {
    k := if |b| == 12 then i else i / 3 * 2 + i % 3;
    if |b| == 17 {
      assert k / 2 == i / 3 && k % 2 == i % 3;
    }
  }

  lemma InText(b: string, k: nat) returns (i: nat)
    requires (|b| == 12 || |b| == 17) && k < 12
    ensures DigitAt(b, i) && DigitsOf(b)[k] == b[i]
  {
    if |b| == 17 {
      i := DigitPlace(k);
    } else {
      i := k;
    }
  }

  lemma AllHexadecimal(b: string)
    requires |b| == 12 || |b| == 17
    ensures AllHex(DigitsOf(b)) <==> Hexadecimal(b)
  {
    hide IsHex;
    if AllHex(DigitsOf(b)) {
      forall i | DigitAt(b, i) ensures b[i] in HEX {
        var k := AmongDigits(b, i);
        HexChars(b[i]);
      }
    }
    if Hexadecimal(b) {
      forall k | 0 <= k < 12 ensures IsHex(DigitsOf(b)[k]) {
        var i := InText(b, k);
        HexChars(b[i]);
      }
    }
  }

  lemma AllZero(b: string)
    requires |b| == 12 || |b| == 17
    ensures (forall k :: 0 <= k < 12 ==> DigitsOf(b)[k] == '0') <==> (forall i :: DigitAt(b, i) ==> b[i] == '0')
  {
    if forall k :: 0 <= k < 12 ==> DigitsOf(b)[k] == '0' {
      forall i | DigitAt(b, i) ensures b[i] == '0' {
        var k := AmongDigits(b, i);
      }
    }
    if forall i :: DigitAt(b, i) ==> b[i] == '0' {
      forall k | 0 <= k < 12 ensures DigitsOf(b)[k] == '0' {
        var i := InText(b, k);
      }
    }
  }

  lemma SeparatorsAreThere(b: string)
    requires |b| == 17
    ensures Separated(b) <==> Grouped(b)
  {
    forall i | 0 <= i < 17 && i % 3 == 2 ensures i == 3 * (i / 3) + 2 && 0 <= i / 3 < 5 {}
    forall g | 0 <= g < 5 ensures (3 * g + 2) % 3 == 2 {}
  }

  /** WHICH TEXT IS AN ADDRESS: twelve hexadecimal digits, or six pairs of them with
      a colon or a dash between, that are not all zero -- and which of the three
      errors the others get. */
  lemma ParseVerdict(b: string)
    ensures ParseBytes(b).Ok? <==>
              (|b| == 12 || Grouped(b)) && Hexadecimal(b) && exists i :: DigitAt(b, i) && b[i] != '0'
    ensures ParseBytes(b) == Err(Zero) <==>
              (|b| == 12 || Grouped(b)) && forall i :: DigitAt(b, i) ==> b[i] == '0'
    ensures ParseBytes(b) == Err(InvalidHex) <==> Grouped(b) && !Hexadecimal(b)
  {
    if |b| == 12 || |b| == 17 {
      AllHexadecimal(b);
      AllZero(b);
      if |b| == 17 {
        SeparatorsAreThere(b);
      }
      if Hexadecimal(b) {
        ZeroValue(DigitsOf(b), 12);
      }
      assert '0' in HEX by { HexChars('0'); }
    }
  }

  /** What is printed: upper-case digits with colons between the pairs, and twelve
      lower-case digits. */
  lemma PrintedShape(a: nat)
    ensures |Format(a)| == 17 && |Hex12(a)| == 12
    ensures forall i :: 0 <= i < 17 ==> if i % 3 == 2 then Format(a)[i] == ':' else Format(a)[i] in UPPER
    ensures forall i :: 0 <= i < 12 ==> Hex12(a)[i] in LOWER
  {
    forall k | 0 <= k < 12 ensures HexDigits(a)[k] in UPPER && Hex12(a)[k] in LOWER {
      DigitChars(Shr(a, 11 - k) % 16);
    }
    forall i | 0 <= i < 17 && i % 3 != 2 ensures Format(a)[i] in UPPER {
      hide Shr;
      assert Format(a)[i] == HexDigits(a)[i / 3 * 2 + i % 3];
    }
  }
}
