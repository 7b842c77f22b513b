// tron/client.py: Base58Check, and the base58 form of a TRON address. SHA-256
// is any function from bytes to 32 bytes.

module Base58 {
  import opened Common
  import opened Rounding

  type Byte = n: nat | n < 256

  type Digest = s: seq<Byte> | |s| == 32 witness seq(32, i => 0)

  type Hash = seq<Byte> -> Digest

  const ALPHABET := "123456789ABCDEFGHJKLMNPQ" + "RSTUVWXYZabcdefghijkmnopqrstuvwxyz"

  // ── Numerals ────────────────────────────────────────────────────────────

  // `int.from_bytes(data, "big")`
  function Value(data: seq<Byte>): nat {
    if data == [] then 0 else Value(data[..|data| - 1]) * 256 + data[|data| - 1]
  }

  function Zeros(data: seq<Byte>): nat {
    if data == [] || data[0] != 0 then 0 else 1 + Zeros(data[1..])
  }

  // The base58 digits of a number, the most significant first; none for zero.
  function Digits(n: nat): string {
    if n == 0 then "" else Digits(n / 58) + [ALPHABET[n % 58]]
  }

  function Ones(k: nat): string {
    if k == 0 then "" else "1" + Ones(k - 1)
  }

  function Encode(data: seq<Byte>): string {
    Ones(Zeros(data)) + Digits(Value(data))
  }

  function Checksum(sha: Hash, payload: seq<Byte>): seq<Byte> {
    sha(sha(payload))[..4]
  }

  function EncodeCheck(sha: Hash, payload: seq<Byte>): string {
    Encode(payload + Checksum(sha, payload))
  }

  // `_b58check_encode`, with its two loops.
  method B58CheckEncode(sha: Hash, payload: seq<Byte>) returns (out: string)
    ensures out == EncodeCheck(sha, payload)
  {
    var checksum: seq<Byte> := sha(sha(payload))[..4];
    var data := payload + checksum;
    out := DigitLoop(Value(data));
    out := ZeroLoop(data, out);
  }

  // Peel off the last digit until nothing is left.
  method DigitLoop(value: nat) returns (out: string)
    ensures out == Digits(value)
  {
    var n := value;
    out := "";
    while n > 0
      invariant Digits(value) == Digits(n) + out
    {
      var rem := n % 58;
      assert Digits(n) + out == Digits(n / 58) + ([ALPHABET[rem]] + out);
      n := n / 58;
      out := [ALPHABET[rem]] + out;
    }
  }

  // One '1' for each leading zero byte.
  method ZeroLoop(data: seq<Byte>, digits: string) returns (out: string)
    ensures out == Ones(Zeros(data)) + digits
  {
    out := digits;
    var i := 0;
    while i < |data| && data[i] == 0
      invariant i <= |data|
      invariant Ones(Zeros(data)) + digits == Ones(Zeros(data[i..])) + out
    {
      assert data[i..][1..] == data[i + 1..];
      OnesShift(Zeros(data[i + 1..]), out);
      out := "1" + out;
      i := i + 1;
    }
    assert Zeros(data[i..]) == 0 && Ones(0) + out == out;
  }

  lemma {:induction false} OnesShift(k: nat, s: string)
    ensures Ones(k + 1) + s == Ones(k) + ("1" + s)
  {
    assert Ones(k + 1) == "1" + Ones(k);
    if k > 0 {
      OnesShift(k - 1, s);
      assert Ones(k + 1) + s == "1" + (Ones(k) + s);
      assert Ones(k) + ("1" + s) == "1" + (Ones(k - 1) + ("1" + s));
    }
  }

  // ── Decoding ────────────────────────────────────────────────────────────

  function DigitOf(c: char): Option<nat> {
    if '1' <= c <= '9' then Some(c as nat - '1' as nat)
    else if 'A' <= c <= 'H' then Some(c as nat - 'A' as nat + 9)
    else if 'J' <= c <= 'N' then Some(c as nat - 'J' as nat + 17)
    else if 'P' <= c <= 'Z' then Some(c as nat - 'P' as nat + 22)
    else if 'a' <= c <= 'k' then Some(c as nat - 'a' as nat + 33)
    else if 'm' <= c <= 'z' then Some(c as nat - 'm' as nat + 44)
    else None
  }

  function Number(s: string): Option<nat> {
    if s == "" then Some(0)
    else if Number(s[..|s| - 1]).None? || DigitOf(s[|s| - 1]).None? then None
    else Some(Number(s[..|s| - 1]).value * 58 + DigitOf(s[|s| - 1]).value)
  }

  function LeadingOnes(s: string): nat {
    if s == "" || s[0] != '1' then 0 else 1 + LeadingOnes(s[1..])
  }

  // The shortest big-endian form.
  function BytesOf(n: nat): seq<Byte> {
    if n == 0 then [] else BytesOf(n / 256) + [n % 256]
  }

  function ZeroBytes(k: nat): seq<Byte> {
    if k == 0 then [] else [0] + ZeroBytes(k - 1)
  }

  function Decode(s: string): Option<seq<Byte>> {
    if Number(s).None? then None else Some(ZeroBytes(LeadingOnes(s)) + BytesOf(Number(s).value))
  }

  function DecodeCheck(sha: Hash, s: string): Option<seq<Byte>> {
    match Decode(s)
    case None => None
    case Some(data) =>
      if |data| < 4 || Checksum(sha, data[..|data| - 4]) != data[|data| - 4..] then None
      else Some(data[..|data| - 4])
  }

  // ── Round trip ──────────────────────────────────────────────────────────

  lemma DigitSymbols(d: nat)
    requires d < 9
    ensures ALPHABET[d] as nat == '1' as nat + d
  {
  }

  lemma CapitalSymbols(d: nat)
    requires 9 <= d < 33
    ensures ALPHABET[d] as nat ==
            (if d < 17 then 'A' as nat + d - 9 else if d < 22 then 'J' as nat + d - 17 else 'P' as nat + d - 22)
  {
  }

  lemma SmallSymbols(d: nat)
    requires 33 <= d < 58
    ensures ALPHABET[d] as nat == if d < 44 then 'a' as nat + d - 33 else 'm' as nat + d - 44
  {
  }

  // The decoder knows every symbol of the alphabet, and only zero is '1'.
  lemma AlphabetInverts(d: nat)
    requires d < 58
    ensures DigitOf(ALPHABET[d]) == Some(d)
    ensures ALPHABET[d] == '1' <==> d == 0
  {
    if d < 9 {
      DigitSymbols(d);
    } else if d < 33 {
      CapitalSymbols(d);
    } else {
      SmallSymbols(d);
    }
  }

  lemma {:induction false} NumberOfDigits(n: nat)
    ensures Number(Digits(n)) == Some(n)
    ensures n > 0 ==> Digits(n) != "" && Digits(n)[0] != '1'
  {
    if n > 0 {
      NumberOfDigits(n / 58);
      AlphabetInverts(n % 58);
    }
  }

  lemma {:induction false} NumberOfOnes(k: nat, s: string)
    requires Number(s).Some?
    ensures Number(Ones(k) + s) == Number(s)
    decreases k, |s|
  {
    if s == "" {
      if k > 0 {
        assert Ones(k) + s == Ones(k);
        OnesShift(k - 1, "");
        assert Ones(k) == Ones(k - 1) + "1";
        assert Ones(k)[..|Ones(k)| - 1] == Ones(k - 1);
        NumberOfOnes(k - 1, "");
        assert Ones(k - 1) + "" == Ones(k - 1);
        assert DigitOf('1') == Some(0);
      }
    } else {
      var init := s[..|s| - 1];
      assert (Ones(k) + s)[..|Ones(k) + s| - 1] == Ones(k) + init;
      NumberOfOnes(k, init);
    }
  }

  lemma {:induction false} LeadingOnesOf(k: nat, s: string)
    requires s == "" || s[0] != '1'
    ensures LeadingOnes(Ones(k) + s) == k
  {
    if k > 0 {
      LeadingOnesOf(k - 1, s);
      assert (Ones(k) + s)[1..] == Ones(k - 1) + s;
    }
  }

  // Leading zeros do not count, and the rest is the shortest form.
  lemma {:induction false} ValueOfZeros(k: nat, rest: seq<Byte>)
    ensures Value(ZeroBytes(k) + rest) == Value(rest)
    decreases k, |rest|
  {
    if rest == [] {
      assert ZeroBytes(k) + rest == ZeroBytes(k);
      if k > 0 {
        ZerosEnd(k);
        ValueOfZeros(k - 1, []);
        assert ZeroBytes(k - 1) + [] == ZeroBytes(k - 1);
      }
    } else {
      var n := |rest| - 1;
      assert (ZeroBytes(k) + rest)[..|ZeroBytes(k) + rest| - 1] == ZeroBytes(k) + rest[..n];
      ValueOfZeros(k, rest[..n]);
    }
  }

  lemma {:induction false} ZerosEnd(k: nat)
    requires k > 0
    ensures |ZeroBytes(k)| == k && ZeroBytes(k)[..k - 1] == ZeroBytes(k - 1) && ZeroBytes(k)[k - 1] == 0
  {
    if k > 1 {
      ZerosEnd(k - 1);
    }
  }

  lemma {:induction false} BytesOfValue(rest: seq<Byte>)
    requires rest == [] || rest[0] != 0
    ensures BytesOf(Value(rest)) == rest
    ensures rest != [] ==> Value(rest) > 0
  {
    if rest != [] {
      BytesOfValue(rest[..|rest| - 1]);
    }
  }

  lemma {:induction false} ZerosSplit(data: seq<Byte>)
    ensures Zeros(data) <= |data| && data == ZeroBytes(Zeros(data)) + data[Zeros(data)..]
    ensures Zeros(data) < |data| ==> data[Zeros(data)] != 0
  {
    if data != [] && data[0] == 0 {
      ZerosSplit(data[1..]);
      assert data == [0] + data[1..];
    }
  }

  // Every byte string comes back, leading zeros included.
  lemma RoundTrip(data: seq<Byte>)
    ensures Decode(Encode(data)) == Some(data)
  {
    ZerosSplit(data);
    var k := Zeros(data);
    var rest := data[k..];
    ValueOfZeros(k, rest);
    BytesOfValue(rest);
    NumberOfDigits(Value(data));
    NumberOfOnes(k, Digits(Value(data)));
    LeadingOnesOf(k, Digits(Value(data)));
  }

  // And every payload, through its checksum.
  lemma CheckRoundTrip(sha: Hash, payload: seq<Byte>)
    ensures DecodeCheck(sha, EncodeCheck(sha, payload)) == Some(payload)
  {
    RoundTrip(payload + Checksum(sha, payload));
  }

  // So two different payloads never share an address.
  lemma Injective(sha: Hash, payload: seq<Byte>, other: seq<Byte>)
    requires EncodeCheck(sha, payload) == EncodeCheck(sha, other)
    ensures payload == other
  {
    CheckRoundTrip(sha, payload);
    CheckRoundTrip(sha, other);
  }

  // ── TRON addresses ──────────────────────────────────────────────────────

  datatype AddressError = Unrecognised | BadHex

  function Lower(s: string): (r: string)
    ensures |r| == |s|
  {
    if s == "" then "" else [LowerChar(s[0])] + Lower(s[1..])
  }

  function LowerChar(c: char): char {
    if 'A' <= c <= 'Z' then (c as int - 'A' as int + 'a' as int) as char else c
  }

  function WithoutPrefix(s: string): string {
    if |s| >= 2 && s[..2] == "0x" then s[2..] else s
  }

  predicate IsSpace(c: char) {
    c == ' ' || ('\t' <= c <= '\r')
  }

  function HexValue(c: char): Option<nat> {
    if '0' <= c <= '9' then Some(c as nat - '0' as nat)
    else if 'a' <= c <= 'f' then Some(c as nat - 'a' as nat + 10)
    else if 'A' <= c <= 'F' then Some(c as nat - 'A' as nat + 10)
    else None
  }

  // `bytes.fromhex`: pairs of digits, with white space allowed between pairs.
  function FromHex(h: string): Option<seq<Byte>> {
    if h == "" then Some([])
    else if IsSpace(h[0]) then FromHex(h[1..])
    else if |h| < 2 || HexValue(h[0]).None? || HexValue(h[1]).None? then None
    else
      var high, low := HexValue(h[0]).value, HexValue(h[1]).value;
      assert high < 16 && low < 16;
      match FromHex(h[2..])
      case None => None
      case Some(rest) => Some([high * 16 + low] + rest)
  }

  function SpaceCount(h: string): nat {
    if h == "" then 0 else (if IsSpace(h[0]) then 1 else 0) + SpaceCount(h[1..])
  }

  // The 42 digits an accepted address is reduced to.
  function Canonical(raw: Option<string>): Option<string> {
    var h := WithoutPrefix(Lower(if raw.Some? then raw.value else ""));
    if |h| == 64 then Some("41" + h[24..])
    else if |h| == 40 then Some("41" + h)
    else if |h| == 42 && h[..2] == "41" then Some(h)
    else if |h| > 40 then Some("41" + h[|h| - 40..])
    else None
  }

  // `hex_to_tron_address`, branch by branch.
  method HexToTronAddress(sha: Hash, raw: Option<string>) returns (r: Result<string, AddressError>)
    ensures Canonical(raw).None? ==> r == Err(Unrecognised)
    ensures Canonical(raw).Some? && FromHex(Canonical(raw).value).None? ==> r == Err(BadHex)
    ensures Canonical(raw).Some? && FromHex(Canonical(raw).value).Some? ==>
              r == Ok(EncodeCheck(sha, FromHex(Canonical(raw).value).value))
  {
    var h := WithoutPrefix(Lower(if raw.Some? then raw.value else ""));
    if |h| == 64 {
      h := "41" + h[24..];
    } else if |h| == 40 {
      h := "41" + h;
    } else if |h| == 42 && h[..2] == "41" {
    } else if |h| > 40 {
      h := "41" + h[|h| - 40..];
    } else {
      return Err(Unrecognised);
    }
    var bytes := FromHex(h);
    if bytes.None? {
      return Err(BadHex);
    }
    var address := B58CheckEncode(sha, bytes.value);
    r := Ok(address);
  }

  function Pow(b: nat, k: nat): nat {
    if k == 0 then 1 else b * Pow(b, k - 1)
  }

  // The leading digit and the length of a number between two multiples of a power.
  lemma {:induction false} LeadingDigit(n: nat, d: nat, k: nat)
    requires 0 < d < 58
    requires d * Pow(58, k) <= n < (d + 1) * Pow(58, k)
    ensures |Digits(n)| == k + 1 && Digits(n)[0] == ALPHABET[d]
  {
    if k == 0 {
      assert n == d && n / 58 == 0;
    } else {
      ThroughDivision(n, d, Pow(58, k - 1));
      LeadingDigit(n / 58, d, k - 1);
      assert n > 0;
    }
  }

  lemma ThroughDivision(n: nat, d: nat, p: nat)
    requires d * (58 * p) <= n < (d + 1) * (58 * p)
    ensures d * p <= n / 58 < (d + 1) * p
    ensures d > 0 && p > 0 ==> n >= 58
  {
  }

  lemma {:induction false} PowPositive(b: nat, k: nat)
    requires b > 0
    ensures Pow(b, k) > 0
  {
    if k > 0 {
      PowPositive(b, k - 1);
    }
  }

  lemma {:induction false} ShortNumber(n: nat, k: nat)
    requires n < Pow(58, k)
    ensures |Digits(n)| <= k
  {
    if n > 0 {
      if k > 0 {
        assert Pow(58, k) == 58 * Pow(58, k - 1);
        ShortNumber(n / 58, k - 1);
      }
    }
  }

  // The value of a byte string lies between its first byte's multiples.
  lemma {:induction false} ValueBounds(data: seq<Byte>)
    requires data != []
    ensures data[0] * Pow(256, |data| - 1) <= Value(data) < (data[0] + 1) * Pow(256, |data| - 1)
  {
    var n := |data| - 1;
    if n == 0 {
      assert data[..0] == [];
    } else {
      ValueBounds(data[..n]);
      ThroughMultiplication(Value(data[..n]), data[0], Pow(256, n - 1), data[n]);
    }
  }

  lemma ThroughMultiplication(v: nat, d: nat, p: nat, low: nat)
    requires d * p <= v < (d + 1) * p && low < 256
    ensures d * (256 * p) <= v * 256 + low < (d + 1) * (256 * p)
  {
  }

  lemma {:induction false} PowAdd(b: nat, i: nat, j: nat)
    ensures Pow(b, i + j) == Pow(b, i) * Pow(b, j)
  {
    if i > 0 {
      PowAdd(b, i - 1, j);
      assert b * (Pow(b, i - 1) * Pow(b, j)) == b * Pow(b, i - 1) * Pow(b, j);
    }
  }

  // 26 * 58^33 <= 0x41 * 256^24, 0x42 * 256^24 <= 27 * 58^33, 256^24 <= 58^33.
  lemma TronBounds()
    ensures 26 * Pow(58, 33) <= 65 * Pow(256, 24) && 66 * Pow(256, 24) <= 27 * Pow(58, 33)
    ensures Pow(256, 24) <= Pow(58, 33)
  {
    PowAdd(58, 11, 11);
    PowAdd(58, 22, 11);
    PowAdd(256, 8, 8);
    PowAdd(256, 16, 8);
    assert Pow(58, 11) == 24986644000165537792;
    assert Pow(256, 8) == 18446744073709551616;
    assert Pow(58, 33) == 24986644000165537792 * 24986644000165537792 * 24986644000165537792;
    assert Pow(256, 24) == 18446744073709551616 * 18446744073709551616 * 18446744073709551616;
  }

  // Two digits a byte, and nothing else but white space.
  lemma {:induction false} FromHexLength(h: string)
    requires FromHex(h).Some?
    ensures 2 * |FromHex(h).value| + SpaceCount(h) == |h|
    decreases |h|
  {
    if h != "" {
      if IsSpace(h[0]) {
        FromHexLength(h[1..]);
      } else {
        FromHexLength(h[2..]);
        assert h[1..][1..] == h[2..];
      }
    }
  }

  // 25 bytes that start with 0x41 make 34 symbols that start with T.
  lemma TronShape(data: seq<Byte>)
    requires |data| == 25 && data[0] == 0x41
    ensures |Encode(data)| == 34 && Encode(data)[0] == 'T'
  {
    TronValue(data);
    LeadingDigit(Value(data), 26, 33);
    CapitalSymbols(26);
    assert Zeros(data) == 0 && Ones(0) == "";
  }

  lemma {:induction false} TronValue(data: seq<Byte>)
    requires |data| == 25 && data[0] == 0x41
    ensures 26 * Pow(58, 33) <= Value(data) < 27 * Pow(58, 33)
  {
    ValueBounds(data);
    TronBounds();
  }

  lemma Widen(v: nat, p: nat)
    requires v < (0x41 + 1) * p
    ensures v < 256 * p
  {
  }

  // Fewer bytes make fewer symbols.
  lemma ShortShape(data: seq<Byte>)
    requires 0 < |data| < 25 && data[0] == 0x41
    ensures |Encode(data)| < 34
  {
    ValueBounds(data);
    Widen(Value(data), Pow(256, |data| - 1));
    PowGrows(256, |data|, 24);
    TronBounds();
    ShortNumber(Value(data), 33);
    assert Zeros(data) == 0 && Ones(0) == "";
  }

  lemma {:induction false} PowGrows(b: nat, i: nat, j: nat)
    requires b > 0 && i <= j
    ensures Pow(b, i) <= Pow(b, j)
  {
    if i < j {
      PowGrows(b, i, j - 1);
      PowPositive(b, j - 1);
      Scale(1, b, Pow(b, j - 1));
    }
  }

  // A converted address has 34 symbols and starts with T exactly when there was
  // no white space among its digits; with white space it is always shorter.
  lemma AddressShape(sha: Hash, raw: Option<string>)
    requires Canonical(raw).Some? && FromHex(Canonical(raw).value).Some?
    ensures
      var address := EncodeCheck(sha, FromHex(Canonical(raw).value).value);
      && (|address| == 34 <==> SpaceCount(Canonical(raw).value) == 0)
      && (|address| == 34 ==> address[0] == 'T')
  {
    var h := Canonical(raw).value;
    var bytes := FromHex(h).value;
    FromHexLength(h);
    assert |h| == 42 && h[0] == '4' && h[1] == '1';
    var data := bytes + Checksum(sha, bytes);
    assert bytes[0] == 0x41 && |data| == |bytes| + 4;
    if |bytes| == 21 {
      TronShape(data);
    } else {
      ShortShape(data);
    }
  }

  const HEX := "0123456789abcdef"

  function ToHex(bytes: seq<Byte>): string {
    if bytes == [] then "" else [HEX[bytes[0] / 16], HEX[bytes[0] % 16]] + ToHex(bytes[1..])
  }

  // Two digits a byte, the high one first.
  lemma {:induction false} HexRoundTrip(bytes: seq<Byte>)
    ensures FromHex(ToHex(bytes)) == Some(bytes)
  {
    if bytes != [] {
      HexRoundTrip(bytes[1..]);
      OneByte(bytes[0], ToHex(bytes[1..]), bytes[1..]);
      assert bytes == [bytes[0]] + bytes[1..];
    }
  }

  lemma {:induction false} OneByte(b: Byte, tail: string, rest: seq<Byte>)
    requires FromHex(tail) == Some(rest)
    ensures FromHex([HEX[b / 16], HEX[b % 16]] + tail) == Some([b] + rest)
  {
    var h := [HEX[b / 16], HEX[b % 16]] + tail;
    HexDigit(b / 16);
    HexDigit(b % 16);
    assert h[2..] == tail && h[0] == HEX[b / 16] && h[1] == HEX[b % 16];
  }

  lemma HexDigit(d: nat)
    requires d < 16
    ensures HexValue(HEX[d]) == Some(d) && !IsSpace(HEX[d])
  {
  }

  // ── Which part of the word counts ───────────────────────────────────────

  predicate AllHex(h: string) {
    forall n | 0 <= n < |h| :: HexValue(h[n]).Some?
  }

  lemma {:induction false} LowerAt(s: string)
    ensures forall n | 0 <= n < |s| :: Lower(s)[n] == LowerChar(s[n])
  {
    if s != "" {
      LowerAt(s[1..]);
    }
  }

  // No digit looks like the prefix.
  lemma {:induction false} NoPrefix(h: string)
    requires AllHex(h)
    ensures WithoutPrefix(Lower(h)) == Lower(h)
  {
    LowerAt(h);
    assert |h| >= 2 ==> HexValue(h[1]).Some? && Lower(h)[..2][1] == LowerChar(h[1]) != 'x';
  }

  // Of a word of digits the last forty count, whatever stands before them: an
  // address with its 41, a padded topic, anything longer. Fewer are no address.
  lemma {:induction false} LastFortyDigits(h: string)
    requires AllHex(h)
    ensures Canonical(Some(h)) == if |h| < 40 then None else Some("41" + Lower(h[|h| - 40..]))
  {
    var lower := Lower(h);
    LowerAt(h);
    NoPrefix(h);
    if |h| >= 40 {
      LowerAt(h[|h| - 40..]);
      assert lower[|h| - 40..] == Lower(h[|h| - 40..]);
      assert |h| == 42 && lower[..2] == "41" ==> lower == "41" + lower[2..];
    }
  }

  // So a padded word, the bare address in it, and that with its 41 convert to the
  // same address;
  lemma {:induction false} SameAddress(h: string, bare: string)
    requires AllHex(h) && |h| >= 40 && bare == h[|h| - 40..]
    ensures Canonical(Some(h)) == Canonical(Some(bare)) == Canonical(Some("41" + bare))
  {
    var full := "41" + bare;
    assert bare[0..] == bare && full[|full| - 40..] == bare && AllHex(full);
    LastFortyDigits(h);
    LastFortyDigits(bare);
    LastFortyDigits(full);
  }

  // and neither a prefix nor the case of the letters matters.
  lemma {:induction false} SameSpelling(h: string)
    requires AllHex(h)
    ensures Canonical(Some("0x" + h)) == Canonical(Some("0X" + h)) == Canonical(Some(Lower(h))) == Canonical(Some(h))
  {
    Prefixed(h, "0x");
    Prefixed(h, "0X");
    LowerTwice(h);
  }

  lemma {:induction false} Prefixed(h: string, prefix: string)
    requires AllHex(h) && (prefix == "0x" || prefix == "0X")
    ensures Canonical(Some(prefix + h)) == Canonical(Some(h))
  {
    LowerAt(h);
    LowerAt(prefix + h);
    NoPrefix(h);
    assert Lower(prefix + h) == "0x" + Lower(h);
    assert WithoutPrefix("0x" + Lower(h)) == Lower(h);
  }

  lemma {:induction false} LowerTwice(h: string)
    ensures Lower(Lower(h)) == Lower(h)
  {
    LowerAt(h);
    LowerAt(Lower(h));
  }

  // ── White space among the digits ────────────────────────────────────────

  function Zeroes(k: nat): string {
    if k == 0 then "" else "00" + Zeroes(k - 1)
  }

  lemma {:induction false} ZeroesAreHex(k: nat, blanks: string)
    requires blanks == "  "
    ensures |Zeroes(k)| == 2 * k && FromHex(Zeroes(k) + blanks).Some? && SpaceCount(Zeroes(k) + blanks) == 2
    ensures forall n | 0 <= n < |Zeroes(k)| :: Zeroes(k)[n] == '0'
  {
    if k == 0 {
      assert Zeroes(0) + blanks == blanks && blanks[1..] == " " && " "[1..] == "";
      assert FromHex(" ") == FromHex("") && SpaceCount(" ") == 1;
    } else {
      var h := Zeroes(k) + blanks;
      ZeroesAreHex(k - 1, blanks);
      assert h[2..] == Zeroes(k - 1) + blanks && h[1..][1..] == h[2..];
      assert h[0] == '0' && h[1] == '0';
    }
  }

  lemma {:induction false} LowerAlready(s: string)
    requires forall n | 0 <= n < |s| :: !('A' <= s[n] <= 'Z')
    ensures Lower(s) == s
  {
    if s != "" {
      LowerAlready(s[1..]);
    }
  }

  // 41, thirty-eight digits and two blanks are accepted, and do not make 34 symbols.
  lemma {:induction false} BlanksExample(sha: Hash)
    ensures
      var h := "41" + (Zeroes(19) + "  ");
      && Canonical(Some(h)) == Some(h) && FromHex(h).Some?
      && |EncodeCheck(sha, FromHex(h).value)| != 34
  {
    var rest := Zeroes(19) + "  ";
    var h := "41" + rest;
    ZeroesAreHex(19, "  ");
    LowerAlready(h);
    assert |h| == 42 && h[..2] == "41" && h[2..] == rest && h[1..][1..] == rest;
    assert FromHex(h).Some? && SpaceCount(h) == 2;
    AddressShape(sha, Some(h));
  }
}
