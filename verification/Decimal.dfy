/** Unsigned decimal text: `u64::to_string` and `str::parse::<u64>`. */
module Decimal {
  import opened Foundation
  import opened Text

  function DigitChar(d: nat): (c: char)
    requires d < 10
    ensures IsDigit(c)
  { '0' + d as char }

  function DigitValue(c: char): (d: nat)
    requires IsDigit(c)
    ensures d < 10 && DigitChar(d) == c
  { (c as int) - ('0' as int) }

  /** The shortest decimal text of `n`. */
  function Print(n: nat): (s: string)
    ensures |s| >= 1 && AllDigits(s)
    ensures |s| > 1 ==> s[0] != '0'
  {
    if n < 10 then [DigitChar(n)] else Print(n / 10) + [DigitChar(n % 10)]
  }

  /** The value of a digit text, read from its last digit. */
  function Value(s: string): nat
    requires AllDigits(s)
  {
    if s == "" then 0 else 10 * Value(s[..|s| - 1]) + DigitValue(s[|s| - 1])
  }

  /** The digits that `u64::from_str` reads: one leading plus sign is skipped. */
  function Unsigned(s: string): string { if s != "" && s[0] == '+' then s[1..] else s }

  function ParseU64(s: string): (r: Option<nat>)
    ensures r.Some? ==> r.value <= U64_MAX
  {
    var digits := Unsigned(s);
    if digits == "" || !AllDigits(digits) || Value(digits) > U64_MAX then None else Some(Value(digits))
  }

  /** Text without sign or leading zeros. */
  predicate Canonical(s: string) { s != "" && AllDigits(s) && (|s| > 1 ==> s[0] != '0') }

  lemma {:induction false} ValueOfPrint(n: nat)
    ensures Value(Print(n)) == n
  {
    if n >= 10 {
      ValueOfPrint(n / 10);
      var s := Print(n);
      assert s[..|s| - 1] == Print(n / 10);
    }
  }

  lemma {:induction false} CanonicalPositive(s: string)
    requires Canonical(s) && s[0] != '0'
    ensures Value(s) > 0
  {
    if |s| > 1 {
      var front := s[..|s| - 1];
      assert front[0] == s[0];
      CanonicalPositive(front);
    } else {
      assert s[..0] == "";
      assert s == [DigitChar(DigitValue(s[0]))];
    }
  }

  lemma {:induction false} PrintOfValue(s: string)
    requires Canonical(s)
    ensures Print(Value(s)) == s
  {
    var front := s[..|s| - 1];
    var last := DigitValue(s[|s| - 1]);
    assert s == front + [s[|s| - 1]];
    if |s| == 1 {
      assert front == "";
    } else {
      assert front[0] == s[0];
      PrintOfValue(front);
      CanonicalPositive(front);
      assert Value(s) / 10 == Value(front) && Value(s) % 10 == last;
    }
  }

  /** Every `u64` survives its own text. */
  lemma ParsePrint(n: nat)
    requires n <= U64_MAX
    ensures ParseU64(Print(n)) == Some(n)
  {
    ValueOfPrint(n);
    assert Unsigned(Print(n)) == Print(n);
  }

  /** The parser is looser than the printer: among accepted texts, exactly the canonical ones print back. */
  lemma PrintParse(s: string)
    requires ParseU64(s).Some?
    ensures Print(ParseU64(s).value) == s <==> Canonical(s)
  {
    if Canonical(s) {
      assert Unsigned(s) == s;
      PrintOfValue(s);
    }
  }

  /** Two accepted texts of the same epoch that are not what the encoder writes. */
  lemma LooseTexts()
    ensures ParseU64("+7") == Some(7) && ParseU64("007") == Some(7)
    ensures Print(7) == "7"
  {
    assert "007"[..2] == "00" && "00"[..1] == "0" && "0"[..0] == "";
    assert "+7"[1..] == "7" && "7"[..0] == "";
    assert Value("0") == 0 && Value("00") == 0;
  }

  // ---- Fixed width ----------------------------------------------------------------------------

  function Pow10(width: nat): (p: nat)
    ensures p >= 1
  { if width == 0 then 1 else 10 * Pow10(width - 1) }

  /** The last `width` digits of `n`, with leading zeros. */
  function Padded(n: nat, width: nat): (s: string)
    ensures |s| == width && AllDigits(s)
  {
    if width == 0 then "" else Padded(n / 10, width - 1) + [DigitChar(n % 10)]
  }

  lemma {:induction false} ValueOfPadded(n: nat, width: nat)
    requires n < Pow10(width)
    ensures Value(Padded(n, width)) == n
  {
    if width > 0 {
      var (s, front) := (Padded(n, width), Padded(n / 10, width - 1));
      assert Pow10(width) == 10 * Pow10(width - 1) && n / 10 < Pow10(width - 1);
      ValueOfPadded(n / 10, width - 1);
      assert s[..|s| - 1] == front && s[|s| - 1] == DigitChar(n % 10);
    }
  }

  lemma {:induction false} PaddedOfValue(s: string)
    requires AllDigits(s)
    ensures Padded(Value(s), |s|) == s && Value(s) < Pow10(|s|)
  {
    if s != "" {
      var front := s[..|s| - 1];
      PaddedOfValue(front);
      assert Value(s) / 10 == Value(front) && Value(s) % 10 == DigitValue(s[|s| - 1]);
      assert s == front + [s[|s| - 1]];
    }
  }
}
