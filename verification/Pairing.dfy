/** The HomeKit setup payload and its base 36 encoding (plugins/homekit_output/pairing.py). */
module Pairing {
  import opened Base

  const SETUP_FLAG_IP := 2
  const ENCODED_PAYLOAD_LENGTH := 9
  const SCHEME := "X-HM://"

  // -- bit operations on unbounded integers ----------------------------------------------------

  function ShiftLeft(a: nat, k: nat): nat {
    a * Pow(2, k)
  }

  /** a & (2^k - 1), which for a negative a is its remainder as well. */
  function LowBits(a: int, k: nat): nat {
    PowPositive(2, k);
    a % Pow(2, k)
  }

  function BitOr(a: nat, b: nat): nat {
    if a == 0 && b == 0 then 0
    else 2 * BitOr(a / 2, b / 2) + if a % 2 == 1 || b % 2 == 1 then 1 else 0
  }

  lemma {:induction false} OrZero(a: nat)
    ensures BitOr(a, 0) == a && BitOr(0, a) == a
  {
    if a > 0 { OrZero(a / 2); }
  }

  /** Or works on the two parts of a number separately. */
  lemma {:induction false} OrParts(a: nat, b: nat, c: nat, d: nat, k: nat)
    requires b < Pow(2, k) && d < Pow(2, k)
    ensures BitOr(ShiftLeft(a, k) + b, ShiftLeft(c, k) + d) == ShiftLeft(BitOr(a, c), k) + BitOr(b, d)
  {
    if k > 0 {
      var x, y := ShiftLeft(a, k - 1) + b / 2, ShiftLeft(c, k - 1) + d / 2;
      OrParts(a, b / 2, c, d / 2, k - 1);
      ShiftDoubles(a, k);
      ShiftDoubles(c, k);
      ShiftDoubles(BitOr(a, c), k);
      OrOfHalves(x, y, b % 2, d % 2);
      OrOfHalves(b / 2, d / 2, b % 2, d % 2);
    }
  }

  lemma ShiftDoubles(a: nat, k: nat)
    requires k > 0
    ensures ShiftLeft(a, k) == 2 * ShiftLeft(a, k - 1)
  {
    assert a * (2 * Pow(2, k - 1)) == 2 * (a * Pow(2, k - 1));
  }

  lemma OrOfHalves(x: nat, y: nat, e: nat, f: nat)
    requires e < 2 && f < 2
    ensures BitOr(2 * x + e, 2 * y + f) == 2 * BitOr(x, y) + if e == 1 || f == 1 then 1 else 0
  {
    assert (2 * x + e) / 2 == x && (2 * x + e) % 2 == e;
    assert (2 * y + f) / 2 == y && (2 * y + f) % 2 == f;
  }

  lemma {:induction false} OrBelow(a: nat, b: nat, k: nat)
    requires a < Pow(2, k) && b < Pow(2, k)
    ensures BitOr(a, b) < Pow(2, k)
  {
    if k > 0 { OrBelow(a / 2, b / 2, k - 1); }
  }

  /** Bits or-ed into the space a shift has made are added. */
  lemma OrFillsShift(a: nat, k: nat, b: nat)
    requires b < Pow(2, k)
    ensures BitOr(ShiftLeft(a, k), b) == ShiftLeft(a, k) + b
  {
    OrParts(a, 0, 0, b, k);
    OrZero(a);
    OrZero(b);
  }

  // -- base 36 -------------------------------------------------------------------------------------

  function Digit36(d: nat): char
    requires d < 36
  {
    if d < 10 then '0' + d as char else 'A' + (d - 10) as char
  }

  predicate IsDigit36(c: char) {
    '0' <= c <= '9' || 'A' <= c <= 'Z'
  }

  function Value(c: char): (d: nat)
    requires IsDigit36(c)
    ensures d < 36
  {
    if c <= '9' then (c - '0') as nat else (c - 'A') as nat + 10
  }

  predicate Numeral36(s: string) {
    forall i :: 0 <= i < |s| ==> IsDigit36(s[i])
  }

  /** The number a base 36 numeral stands for, most significant digit first. */
  function Decode36(s: string): nat
    requires Numeral36(s)
  {
    if s == "" then 0 else 36 * Decode36(s[..|s| - 1]) + Value(s[|s| - 1])
  }

  lemma DigitValue(d: nat)
    requires d < 36
    ensures IsDigit36(Digit36(d)) && Value(Digit36(d)) == d
  {
  }

  /** The digits of a number, none for zero. */
  function Digits36(v: nat): string {
    if v == 0 then "" else Digits36(v / 36) + [Digit36(v % 36)]
  }

  function Encode36(v: nat): string {
    if v == 0 then "0" else Digits36(v)
  }

  /** The digits stand for the number, and do not begin with a zero. */
  lemma {:induction false} DigitsMean(v: nat)
    ensures Numeral36(Digits36(v)) && Decode36(Digits36(v)) == v
    ensures v > 0 ==> Digits36(v) != "" && Digits36(v)[0] != '0'
  {
    if v > 0 {
      DigitsMean(v / 36);
      DigitValue(v % 36);
      assert (Digits36(v / 36) + [Digit36(v % 36)])[..|Digits36(v / 36)|] == Digits36(v / 36);
    }
  }

  lemma {:induction false} DigitsLength(v: nat, n: nat)
    requires v < Pow(36, n)
    ensures |Digits36(v)| <= n
  {
    if v > 0 { DigitsLength(v / 36, n - 1); }
  }

  function Reversed(s: string): (r: string)
    ensures |r| == |s|
  {
    if s == "" then "" else [s[|s| - 1]] + Reversed(s[..|s| - 1])
  }

  /** Digits are collected from the least significant on, and reversed at the end. */
  method Base36Encode(value: nat) returns (encoded: string)
    ensures encoded == Encode36(value)
    ensures Numeral36(encoded) && Decode36(encoded) == value
    ensures encoded != "" && (value > 0 ==> encoded[0] != '0')
  {
    if value == 0 {
      assert "0"[..0] == "";
      return "0";
    }
    var digits, rest := "", value;
    while rest > 0
      invariant Digits36(value) == Digits36(rest) + Reversed(digits)
    {
      assert (digits + [Digit36(rest % 36)])[..|digits|] == digits;
      rest, digits := rest / 36, digits + [Digit36(rest % 36)];
    }
    encoded := Reversed(digits);
    DigitsMean(value);
  }

  function Zeros(n: nat): string {
    seq(n, _ => '0')
  }

  function RightJustify(s: string, width: nat): string {
    if |s| >= width then s else Zeros(width - |s|) + s
  }

  lemma {:induction false} LeadingZero(s: string)
    requires Numeral36(s)
    ensures Numeral36(['0'] + s) && Decode36(['0'] + s) == Decode36(s)
  {
    var t := ['0'] + s;
    if s == "" {
      assert t[..0] == "";
    } else {
      LeadingZero(s[..|s| - 1]);
      assert t[..|s|] == ['0'] + s[..|s| - 1];
    }
  }

  lemma {:induction false} PaddingKeepsValue(n: nat, s: string)
    requires Numeral36(s)
    ensures Numeral36(Zeros(n) + s) && Decode36(Zeros(n) + s) == Decode36(s)
  {
    if n == 0 {
      assert Zeros(0) + s == s;
    } else {
      PaddingKeepsValue(n - 1, s);
      LeadingZero(Zeros(n - 1) + s);
      assert Zeros(n) + s == ['0'] + (Zeros(n - 1) + s);
    }
  }

  // -- the setup URI ----------------------------------------------------------------------------------

  function WithoutDashes(setupCode: string): string {
    Filter(setupCode, c => c != '-')
  }

  /** The payload as a number: category, flags and setup code side by side. */
  function Payload(category: nat, flags: nat, code: nat): nat {
    (category * 16 + flags) * 0x800_0000 + code
  }

  /** What a phone reads back from a setup URI. */
  datatype Setup = Setup(category: nat, flags: nat, code: nat, id: string)

  /** What a URI carries: the category keeps its low eight bits and the code its low 27; the next four bits of the code,
      which the mask lets through, land in the flags. */
  function Transmitted(category: int, code: int, id: string): Setup {
    Setup(category % 256, BitOr(SETUP_FLAG_IP, code / 0x800_0000 % 16), code % 0x800_0000, id)
  }

  /** The bit field, put together shift by shift. */
  method BuildPayload(category: int, code: int) returns (payload: nat)
    ensures var t := Transmitted(category, code, ""); payload == Payload(t.category, t.flags, t.code)
  {
    payload := 0;
    payload := BitOr(payload, LowBits(0, 3));
    Masks(0);
    payload := ShiftLeft(payload, 4);
    payload := BitOr(payload, LowBits(0, 4));
    assert payload == 0;
    payload := ShiftLeft(payload, 8);
    payload := BitOr(payload, LowBits(category, 8));
    Masks(category);
    OrZero(category % 256);
    assert payload == category % 256;
    payload := ShiftLeft(payload, 4);
    payload := BitOr(payload, LowBits(SETUP_FLAG_IP, 4));
    FlagField(category % 256);
    assert payload == category % 256 * 16 + SETUP_FLAG_IP;
    payload := ShiftLeft(payload, 27);
    payload := BitOr(payload, LowBits(code, 31));
    CodeField(category % 256, code);
  }

  lemma Masks(a: int)
    ensures LowBits(a, 3) == a % 8 && LowBits(a, 4) == a % 16 && LowBits(a, 8) == a % 256
    ensures LowBits(a, 31) == a % 0x8000_0000
  {
    Powers();
  }

  lemma FlagField(category: nat)
    ensures BitOr(ShiftLeft(category, 4), LowBits(SETUP_FLAG_IP, 4)) == category * 16 + SETUP_FLAG_IP
  {
    Powers();
    OrFillsShift(category, 4, SETUP_FLAG_IP);
  }

  /** Or-ing in the code: four of its bits meet the flags. */
  lemma CodeField(category: nat, code: int)
    ensures BitOr(ShiftLeft(category * 16 + SETUP_FLAG_IP, 27), LowBits(code, 31))
         == Payload(category, BitOr(SETUP_FLAG_IP, code / 0x800_0000 % 16), code % 0x800_0000)
  {
    var high, low := code / 0x800_0000 % 16, code % 0x800_0000;
    Masks(code);
    CodeSplits(code);
    Powers();
    ShiftedOr(category * 16 + SETUP_FLAG_IP, high, low, 27, 0x800_0000);
    FlagsMeet(category, high);
  }

  lemma CodeSplits(code: int)
    ensures code % 0x8000_0000 == code / 0x800_0000 % 16 * 0x800_0000 + code % 0x800_0000
  {
    var q := code / 0x800_0000;
    assert code == q / 16 * 0x8000_0000 + (q % 16 * 0x800_0000 + code % 0x800_0000);
  }

  lemma ShiftedOr(x: nat, high: nat, low: nat, k: nat, p: nat)
    requires p == Pow(2, k) && low < p
    ensures BitOr(ShiftLeft(x, k), high * p + low) == BitOr(x, high) * p + low
  {
    OrParts(x, 0, high, low, k);
    OrZero(low);
  }

  lemma FlagsMeet(category: nat, high: nat)
    requires high < 16
    ensures BitOr(category * 16 + SETUP_FLAG_IP, high) == category * 16 + BitOr(SETUP_FLAG_IP, high)
  {
    assert Pow(2, 4) == 16;
    OrParts(category, SETUP_FLAG_IP, 0, high, 4);
    OrZero(category);
  }

  lemma Powers()
    ensures Pow(2, 3) == 8 && Pow(2, 4) == 16 && Pow(2, 8) == 256 && Pow(2, 27) == 0x800_0000
    ensures Pow(2, 31) == 0x8000_0000 && Pow(36, 9) == 101_559_956_668_416
  {
    assert Pow(2, 8) == 16 * Pow(2, 4);
    assert Pow(2, 12) == 16 * Pow(2, 8);
    assert Pow(2, 16) == 16 * Pow(2, 12);
    assert Pow(2, 20) == 16 * Pow(2, 16);
    assert Pow(2, 24) == 16 * Pow(2, 20);
    assert Pow(2, 27) == 8 * Pow(2, 24);
    assert Pow(2, 31) == 16 * Pow(2, 27);
    assert Pow(36, 3) == 46_656;
    assert Pow(36, 6) == 46_656 * Pow(36, 3);
    assert Pow(36, 9) == 46_656 * Pow(36, 6);
  }

  function DecodeUri(uri: string): Option<Setup> {
    if |uri| < 16 || uri[..7] != SCHEME || !Numeral36(uri[7..16]) then None
    else
      var payload := Decode36(uri[7..16]);
      Some(Setup(payload / 0x8000_0000, (payload / 0x800_0000) % 16, payload % 0x800_0000, uri[16..]))
  }

  /** The URI that carries a setup. */
  function UriOf(t: Setup): string {
    SCHEME + RightJustify(Encode36(Payload(t.category, t.flags, t.code)), ENCODED_PAYLOAD_LENGTH) + t.id
  }

  /** The fields do not overlap. */
  predicate Fits(t: Setup) {
    t.category < 256 && t.flags < 16 && t.code < 0x800_0000
  }

  lemma TransmittedFits(category: int, code: int, id: string)
    ensures Fits(Transmitted(category, code, id))
  {
    assert Pow(2, 4) == 16;
    OrBelow(SETUP_FLAG_IP, code / 0x800_0000 % 16, 4);
  }

  /** A quotient and a remainder are read off the sum they make. */
  lemma ReadBack(high: nat, low: nat, m: nat)
    requires low < m
    ensures (high * m + low) / m == high && (high * m + low) % m == low
  {
    Euclid(high * m + low, m, high, low);
  }

  lemma Euclid(x: nat, m: nat, q: nat, r: nat)
    requires x == q * m + r && r < m
    ensures x / m == q && x % m == r
  {
    var d := x / m - q;
    assert x == (x / m) * m + x % m;
    assert d * m == (x / m) * m - q * m;
    Scaled(d, m);
  }

  lemma Scaled(d: int, m: int)
    requires m >= 1
    ensures d >= 1 ==> d * m >= m
    ensures d <= -1 ==> d * m <= -m
  {
  }

  lemma FieldsApart(t: Setup)
    requires Fits(t)
    ensures
      var p := Payload(t.category, t.flags, t.code);
      && p / 0x8000_0000 == t.category && (p / 0x800_0000) % 16 == t.flags && p % 0x800_0000 == t.code
      && p < 101_559_956_668_416
  {
    var upper := t.category * 16 + t.flags;
    ReadBack(upper, t.code, 0x800_0000);
    ReadBack(t.category, t.flags, 16);
    ReadBack(t.category, t.flags * 0x800_0000 + t.code, 0x8000_0000);
  }

  /** Nine digits are enough for every payload, and padded to nine they still stand for it. */
  lemma NineDigits(payload: nat)
    requires payload < 101_559_956_668_416
    ensures
      var padded := RightJustify(Encode36(payload), ENCODED_PAYLOAD_LENGTH);
      |padded| == ENCODED_PAYLOAD_LENGTH && Numeral36(padded) && Decode36(padded) == payload
  {
    Powers();
    var encoded := Encode36(payload);
    DigitsMean(payload);
    DigitsLength(payload, ENCODED_PAYLOAD_LENGTH);
    assert "0"[..0] == "";
    PaddingKeepsValue(ENCODED_PAYLOAD_LENGTH - |encoded|, encoded);
  }

  /** Round trip: reading the URI back recovers the category, the flags, the code and the setup id. */
  lemma UriCarries(t: Setup)
    requires Fits(t)
    ensures |UriOf(t)| == 16 + |t.id| && DecodeUri(UriOf(t)) == Some(t)
  {
    FieldsApart(t);
    var payload := Payload(t.category, t.flags, t.code);
    NineDigits(payload);
    var padded := RightJustify(Encode36(payload), ENCODED_PAYLOAD_LENGTH);
    var uri := UriOf(t);
    assert uri[..7] == SCHEME && uri[7..16] == padded && uri[16..] == t.id;
  }

  /** Builds the URI, or fails when int(), which is a parameter here, does not read the code. */
  method SetupUri(read: string -> Option<int>, setupCode: string, setupId: string, category: int)
    returns (uri: Option<string>)
    ensures uri.None? <==> read(WithoutDashes(setupCode)).None?
    ensures uri.Some? ==>
              var t := Transmitted(category, read(WithoutDashes(setupCode)).value, setupId);
              uri.value == UriOf(t) && DecodeUri(uri.value) == Some(t) && |uri.value| == 16 + |setupId|
  {
    var digits := WithoutDashes(setupCode);
    var code := read(digits);
    if code.None? {
      return None;
    }
    var payload := BuildPayload(category, code.value);
    var encoded := Base36Encode(payload);
    TransmittedFits(category, code.value, setupId);
    UriCarries(Transmitted(category, code.value, setupId));
    return Some(SCHEME + RightJustify(encoded, ENCODED_PAYLOAD_LENGTH) + setupId);
  }

  /** Two setups have the same URI exactly when the same is carried. */
  lemma SameUriExactly(category: int, code: int, id: string, category': int, code': int, id': string)
    ensures UriOf(Transmitted(category, code, id)) == UriOf(Transmitted(category', code', id'))
            <==> Transmitted(category, code, id) == Transmitted(category', code', id')
  {
    TransmittedFits(category, code, id);
    TransmittedFits(category', code', id');
    UriCarries(Transmitted(category, code, id));
    UriCarries(Transmitted(category', code', id'));
  }

  predicate InRange(category: int, code: int) {
    0 <= category < 256 && 0 <= code < 0x800_0000
  }

  /** A setup comes back as it was exactly when the category fits eight bits and the code fits 27. */
  lemma ComesBackExactly(category: int, code: int, id: string)
    ensures
      var t := Transmitted(category, code, id);
      t.category == category && t.flags == SETUP_FLAG_IP && t.code == code <==> InRange(category, code)
  {
    OrZero(SETUP_FLAG_IP);
    if InRange(category, code) {
      assert category % 256 == category && code % 0x800_0000 == code && code / 0x800_0000 == 0;
    }
  }

  /** Within that range distinct setups have distinct URIs. */
  lemma DistinctSetupsDistinctUris(category: int, code: int, id: string, category': int, code': int, id': string)
    requires InRange(category, code) && InRange(category', code')
    ensures UriOf(Transmitted(category, code, id)) == UriOf(Transmitted(category', code', id'))
            <==> category == category' && code == code' && id == id'
  {
    SameUriExactly(category, code, id, category', code', id');
    ComesBackExactly(category, code, id);
    ComesBackExactly(category', code', id');
  }

  /** Beyond it codes collide: any code in range and the code 2^28 above it have the same URI. */
  lemma OverlongCodesCollide(category: int, code: int, id: string)
    requires InRange(category, code)
    ensures UriOf(Transmitted(category, code + 0x1000_0000, id)) == UriOf(Transmitted(category, code, id))
  {
    assert (code + 0x1000_0000) / 0x800_0000 % 16 == 2 && (code + 0x1000_0000) % 0x800_0000 == code;
    assert code / 0x800_0000 == 0 && code % 0x800_0000 == code;
    OrZero(SETUP_FLAG_IP);
    assert BitOr(2, 2) == 2 * BitOr(1, 1);
    assert BitOr(1, 1) == 2 * BitOr(0, 0) + 1;
    SameUriExactly(category, code + 0x1000_0000, id, category, code, id);
  }

  // -- the format, by example -------------------------------------------------------------------------------

  /** The digits are the ten figures and the twenty-six capital letters, in that order. */
  lemma DigitsAre(d: nat)
    requires d < 36
    ensures Digit36(d) == "0123456789ABCDEFGHIJKLMNOPQRSTUVWXYZ"[d]
  {
  }

  /** Numerals are written with the most significant digit first, in base 36. */
  lemma NumeralsByExample()
    ensures Encode36(0) == "0" && Encode36(35) == "Z" && Encode36(36) == "10" && Encode36(36 * 36 + 2) == "102"
  {
    assert Digits36(1) == Digits36(0) + ['1'];
    assert Digits36(36) == Digits36(1) + ['0'];
    assert Digits36(36 * 36 + 2) == Digits36(36) + ['2'];
  }

  /** A URI begins with the scheme, followed by nine digits and the setup id; in range it says that the accessory is
      reached over IP. */
  lemma UriShape(category: int, code: int, id: string)
    ensures
      var t := Transmitted(category, code, id);
      && UriOf(t)[..7] == "X-HM://" && UriOf(t)[16..] == id
      && (InRange(category, code) ==> t.flags == 2)
  {
    TransmittedFits(category, code, id);
    var t := Transmitted(category, code, id);
    FieldsApart(t);
    NineDigits(Payload(t.category, t.flags, t.code));
    ComesBackExactly(category, code, id);
  }

  // -- setup codes ----------------------------------------------------------------------------------------

  predicate AllDigits(s: string) {
    forall i :: 0 <= i < |s| ==> '0' <= s[i] <= '9'
  }

  function Decimal(s: string): nat
    requires AllDigits(s)
  {
    if s == "" then 0 else 10 * Decimal(s[..|s| - 1]) + (s[|s| - 1] - '0') as nat
  }

  /** int() reads plain digits as a decimal number, whatever else it accepts. */
  ghost predicate ReadsDecimals(read: string -> Option<int>) {
    forall s :: s != "" && AllDigits(s) ==> read(s) == Some(Decimal(s))
  }

  lemma {:induction false} DecimalFits(s: string)
    requires AllDigits(s)
    ensures Decimal(s) < Pow(10, |s|)
  {
    if s != "" { DecimalFits(s[..|s| - 1]); }
  }

  /** Every setup code of eight digits, with dashes anywhere, is read and is in range. */
  lemma EightDigitsFit(read: string -> Option<int>, setupCode: string, category: nat)
    requires ReadsDecimals(read) && category < 256
    requires AllDigits(WithoutDashes(setupCode)) && |WithoutDashes(setupCode)| == 8
    ensures var code := read(WithoutDashes(setupCode)); code.Some? && InRange(category, code.value)
  {
    DecimalFits(WithoutDashes(setupCode));
    assert Pow(10, 4) == 10_000;
    assert Pow(10, 8) == 10_000 * Pow(10, 4);
  }
}
