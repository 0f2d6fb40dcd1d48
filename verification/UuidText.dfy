/** UUID text: the lower-case hyphenated form that is written and the four forms that are read. */
module UuidText {
  import opened Foundation
  import opened MessageDomain

  predicate IsHex(c: char) { '0' <= c <= '9' || 'a' <= c <= 'f' || 'A' <= c <= 'F' }

  predicate IsLowerHex(c: char) { '0' <= c <= '9' || 'a' <= c <= 'f' }

  predicate AllHex(s: string) { forall i | 0 <= i < |s| :: IsHex(s[i]) }

  predicate AllLowerHex(s: string) { forall i | 0 <= i < |s| :: IsLowerHex(s[i]) }

  function HexChar(d: nat): (c: char)
    requires d < 16
    ensures IsLowerHex(c)
  { if d < 10 then '0' + d as char else 'a' + (d - 10) as char }

  function HexDigit(c: char): (d: nat)
    requires IsHex(c)
    ensures d < 16
    ensures HexChar(d) == c <==> IsLowerHex(c)
  {
    if '0' <= c <= '9' then c as int - '0' as int
    else if 'a' <= c <= 'f' then c as int - 'a' as int + 10
    else c as int - 'A' as int + 10
  }

  function Pow16(width: nat): (p: nat)
    ensures p >= 1
  { if width == 0 then 1 else 16 * Pow16(width - 1) }

  /** The last `width` hexadecimal digits of `n`. */
  function Hex(n: nat, width: nat): (s: string)
    ensures |s| == width && AllLowerHex(s)
  {
    if width == 0 then "" else Hex(n / 16, width - 1) + [HexChar(n % 16)]
  }

  function HexValue(s: string): nat
    requires AllHex(s)
  {
    if s == "" then 0 else 16 * HexValue(s[..|s| - 1]) + HexDigit(s[|s| - 1])
  }

  function Hyphenate(h: string): string
    requires |h| == 32
  { h[0..8] + "-" + h[8..12] + "-" + h[12..16] + "-" + h[16..20] + "-" + h[20..32] }

  /** The 32 digits of a hyphenated text, if it is one. */
  function Dehyphenate(s: string): Option<string> {
    if |s| != 36 || s[8] != '-' || s[13] != '-' || s[18] != '-' || s[23] != '-' then None
    else Some(s[0..8] + s[9..13] + s[14..18] + s[19..23] + s[24..36])
  }

  function DigitsOf(s: string): Option<string> {
    if |s| == 32 then Some(s)
    else if |s| == 36 then Dehyphenate(s)
    else if |s| == 38 && s[0] == '{' && s[37] == '}' then Dehyphenate(s[1..37])
    else if |s| == 45 && s[..9] == "urn:uuid:" then Dehyphenate(s[9..])
    else None
  }

  /** `Uuid::parse_str`. */
  function ParseUuid(s: string): (r: Option<Uuid>) {
    var digits :- DigitsOf(s);
    if AllHex(digits) then Some(HexValue(digits)) else None
  }

  function FormatUuid(id: Uuid): string { Hyphenate(Hex(id, 32)) }

  /** `from_str` of every identifier: a UUID text of version 7. */
  function ParseIdentifier(s: string): Option<Uuid> {
    var id :- ParseUuid(s);
    if IsUuidV7(id) then Some(id) else None
  }

  lemma {:induction false} HexReads(n: nat, width: nat)
    requires n < Pow16(width)
    ensures HexValue(Hex(n, width)) == n
  {
    if width > 0 {
      var s := Hex(n, width);
      assert Pow16(width) == 16 * Pow16(width - 1) && n / 16 < Pow16(width - 1);
      HexReads(n / 16, width - 1);
      assert s[..|s| - 1] == Hex(n / 16, width - 1) && s[|s| - 1] == HexChar(n % 16);
    }
  }

  lemma {:induction false} HexWrites(s: string)
    requires AllHex(s)
    ensures HexValue(s) < Pow16(|s|)
    ensures Hex(HexValue(s), |s|) == s <==> AllLowerHex(s)
  {
    if s != "" {
      var (front, last) := (s[..|s| - 1], s[|s| - 1]);
      HexWrites(front);
      assert HexValue(s) / 16 == HexValue(front) && HexValue(s) % 16 == HexDigit(last);
      assert s == front + [last];
      assert AllLowerHex(s) <==> AllLowerHex(front) && IsLowerHex(last);
      var written := Hex(HexValue(s), |s|);
      assert written == Hex(HexValue(front), |s| - 1) + [HexChar(HexDigit(last))];
      if written == s { assert written[..|s| - 1] == front && written[|s| - 1] == last; }
    }
  }

  lemma HyphensComeOff(h: string)
    requires |h| == 32
    ensures |Hyphenate(h)| == 36 && Dehyphenate(Hyphenate(h)) == Some(h)
  {
    var s := Hyphenate(h);
    assert s[0..8] == h[0..8];
    assert s[9..13] == h[8..12];
    assert s[14..18] == h[12..16];
    assert s[19..23] == h[16..20];
    assert s[24..36] == h[20..32];
    assert h[0..8] + h[8..12] + h[12..16] + h[16..20] + h[20..32] == h;
  }

  lemma HyphensGoBack(s: string)
    requires Dehyphenate(s).Some?
    ensures |Dehyphenate(s).value| == 32 && Hyphenate(Dehyphenate(s).value) == s
  {
    var h := Dehyphenate(s).value;
    assert h[0..8] == s[0..8];
    assert h[8..12] == s[9..13];
    assert h[12..16] == s[14..18];
    assert h[16..20] == s[19..23];
    assert h[20..32] == s[24..36];
    var t := Hyphenate(h);
    assert s == s[0..8] + [s[8]] + s[9..13] + [s[13]] + s[14..18] + [s[18]] + s[19..23] + [s[23]] + s[24..36];
  }

  lemma LimitIsPow16()
    ensures UUID_LIMIT == Pow16(32)
  {
    assert Pow16(4) == 0x1_0000;
    assert Pow16(8) == 0x1_0000_0000;
    assert Pow16(12) == 0x1_0000_0000_0000;
    assert Pow16(16) == 0x1_0000_0000_0000_0000;
    assert Pow16(20) == 0x1_0000_0000_0000_0000_0000;
    assert Pow16(24) == 0x1_0000_0000_0000_0000_0000_0000;
    assert Pow16(28) == 0x1_0000_0000_0000_0000_0000_0000_0000;
  }

  /** Every identity survives its own text. */
  lemma UuidRoundTrip(id: Uuid)
    requires id < UUID_LIMIT
    ensures ParseUuid(FormatUuid(id)) == Some(id)
    ensures IsUuidV7(id) ==> ParseIdentifier(FormatUuid(id)) == Some(id)
  {
    hide Pow16, UuidVersion;
    LimitIsPow16();
    HexReads(id, 32);
    HyphensComeOff(Hex(id, 32));
  }

  /** Of the texts that are read, exactly the lower-case hyphenated ones are what would be written. */
  lemma WrittenFormIsHyphenatedLower(s: string)
    requires ParseUuid(s).Some?
    ensures ParseUuid(s).value < UUID_LIMIT
    ensures FormatUuid(ParseUuid(s).value) == s <==> |s| == 36 && AllLowerHex(DigitsOf(s).value)
  {
    hide Pow16;
    LimitIsPow16();
    var digits := DigitsOf(s).value;
    if |s| == 36 { HyphensGoBack(s); }
    if |s| == 38 { HyphensGoBack(s[1..37]); }
    if |s| == 45 { HyphensGoBack(s[9..]); }
    HexWrites(digits);
    HyphensComeOff(Hex(HexValue(digits), 32));
    HyphensComeOff(digits);
  }

  // ---- The version digit ----------------------------------------------------------------------

  lemma DivTwice(n: nat, p: nat)
    requires p >= 1
    ensures n / 16 / p == n / (16 * p)
  {
    var (q, r) := (n / 16, n % 16);
    var (a, b) := (q / p, q % p);
    assert n == (16 * p) * a + (16 * b + r);
    assert 16 * b + r < 16 * p;
    DivMod(n, 16 * p, a, 16 * b + r);
  }

  lemma {:induction false} HexAt(n: nat, width: nat, k: nat)
    requires k < width
    ensures Hex(n, width)[k] == HexChar(n / Pow16(width - 1 - k) % 16)
    decreases width
  {
    if k < width - 1 {
      HexAt(n / 16, width - 1, k);
      DivTwice(n, Pow16(width - 2 - k));
    }
  }

  /** The version of an identity is the thirteenth digit of its text, after the second hyphen. */
  lemma VersionIsTheThirteenthDigit(id: Uuid)
    ensures FormatUuid(id)[14] == HexChar(UuidVersion(id))
    ensures id < UUID_LIMIT ==> (IsUuidV7(id) <==> FormatUuid(id)[14] == '7')
  {
    hide Hex, Pow16;
    HexAt(id, 32, 12);
    NineteenDigits();
    var h := Hex(id, 32);
    assert Hyphenate(h)[14] == h[12..16][0];
  }

  lemma NineteenDigits()
    ensures Pow16(19) == 0x1000_0000_0000_0000_0000
  {
    assert Pow16(4) == 0x1_0000;
    assert Pow16(8) == 0x1_0000_0000;
    assert Pow16(12) == 0x1_0000_0000_0000;
    assert Pow16(16) == 0x1_0000_0000_0000_0000;
  }
}
