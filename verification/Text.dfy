/** Text helpers: splitting on one character, joining, and the character classes of the identifier grammars. */
module Text {

  predicate IsLower(c: char) { 'a' <= c <= 'z' }

  predicate IsDigit(c: char) { '0' <= c <= '9' }

  /** `is_ascii_lowercase() || is_ascii_digit()`. */
  predicate IsAlnum(c: char) { IsLower(c) || IsDigit(c) }

  /** `char::is_control`. */
  predicate IsControl(c: char) { (c as int) < 0x20 || 0x7F <= (c as int) <= 0x9F }

  predicate AllAlnum(s: string) { forall i | 0 <= i < |s| :: IsAlnum(s[i]) }

  predicate AllDigits(s: string) { forall i | 0 <= i < |s| :: IsDigit(s[i]) }

  /** Whether `a` is somewhere followed directly by `b`: the `windows(2).any(..)` scans. */
  predicate Adjacent(s: string, a: char, b: char) {
    exists i {:trigger s[i]} | 0 <= i < |s| - 1 :: s[i] == a && s[i + 1] == b
  }

  predicate StartsWith(s: string, prefix: string) {
    |prefix| <= |s| && s[..|prefix|] == prefix
  }

  /** `str::split(sep)`: always at least one part, none of which holds the separator. */
  function Split(s: string, sep: char): (parts: seq<string>)
    ensures |parts| >= 1
    ensures forall p | p in parts :: sep !in p
  {
    if s == "" then [""]
    else
      var rest := Split(s[1..], sep);
      if s[0] == sep then [""] + rest else [[s[0]] + rest[0]] + rest[1..]
  }

  function Join(parts: seq<string>, sep: char): string
    requires |parts| >= 1
  {
    if |parts| == 1 then parts[0] else parts[0] + [sep] + Join(parts[1..], sep)
  }

  lemma {:induction false} SplitPlain(s: string, sep: char)
    requires sep !in s
    ensures Split(s, sep) == [s]
  {
    if s != "" {
      SplitPlain(s[1..], sep);
      assert [s[0]] + s[1..] == s;
    }
  }

  /** Splitting distributes over a separator: the law every subject and name argument uses. */
  lemma {:induction false} SplitConcat(a: string, b: string, sep: char)
    ensures Split(a + [sep] + b, sep) == Split(a, sep) + Split(b, sep)
  {
    var whole := a + [sep] + b;
    if a == "" {
      assert whole[1..] == b;
    } else {
      assert whole[1..] == a[1..] + [sep] + b;
      SplitConcat(a[1..], b, sep);
    }
  }

  lemma {:induction false} JoinSplit(s: string, sep: char)
    ensures Join(Split(s, sep), sep) == s
  {
    if s != "" {
      var (rest, parts) := (Split(s[1..], sep), Split(s, sep));
      JoinSplit(s[1..], sep);
      if s[0] == sep {
        assert parts == [""] + rest && parts[1..] == rest;
        assert Join(parts, sep) == "" + [sep] + s[1..];
      } else {
        assert parts == [[s[0]] + rest[0]] + rest[1..];
        JoinFirst(s[0], rest, sep);
        assert [s[0]] + s[1..] == s;
      }
    }
  }

  lemma JoinFirst(c: char, parts: seq<string>, sep: char)
    requires |parts| >= 1
    ensures Join([[c] + parts[0]] + parts[1..], sep) == [c] + Join(parts, sep)
  {
    if |parts| > 1 {
      assert ([[c] + parts[0]] + parts[1..])[1..] == parts[1..];
      assert [c] + parts[0] + [sep] + Join(parts[1..], sep) == [c] + (parts[0] + [sep] + Join(parts[1..], sep));
    }
  }

  lemma {:induction false} SplitJoin(parts: seq<string>, sep: char)
    requires |parts| >= 1
    requires forall p | p in parts :: sep !in p
    ensures Split(Join(parts, sep), sep) == parts
  {
    if |parts| == 1 {
      SplitPlain(parts[0], sep);
    } else {
      SplitJoin(parts[1..], sep);
      SplitPlain(parts[0], sep);
      SplitConcat(parts[0], Join(parts[1..], sep), sep);
    }
  }

  /** No part is empty iff the text is nonempty, has no separator at an end and no two in a row. */
  predicate DottedCleanly(s: string, sep: char) {
    s != "" && s[0] != sep && s[|s| - 1] != sep && !Adjacent(s, sep, sep)
  }

  lemma {:induction false} NoEmptyPart(s: string, sep: char)
    ensures "" !in Split(s, sep) <==> DottedCleanly(s, sep)
    ensures s != "" && s[0] != sep ==> Split(s, sep)[0] != ""
  {
    if s != "" {
      var t := s[1..];
      NoEmptyPart(t, sep);
      var rest := Split(t, sep);
      assert Split(s, sep) == if s[0] == sep then [""] + rest else [[s[0]] + rest[0]] + rest[1..];
      AdjacentTail(s, sep);
      if s[0] != sep {
        if t == "" {
          assert rest == [""] && [s[0]] + "" == s;
        } else {
          assert rest == [rest[0]] + rest[1..];
          if t[0] == sep {
            assert rest == [""] + Split(t[1..], sep);
            assert rest[1..] == Split(t[1..], sep);
            NoEmptyPart(t[1..], sep);
            AdjacentTail(t, sep);
          }
        }
      }
    }
  }

  lemma AdjacentTail(s: string, sep: char)
    requires s != ""
    ensures Adjacent(s, sep, sep) <==> (|s| > 1 && s[0] == sep && s[1] == sep) || Adjacent(s[1..], sep, sep)
  {
    var t := s[1..];
    if Adjacent(s, sep, sep) {
      var i :| 0 <= i < |s| - 1 && s[i] == sep && s[i + 1] == sep;
      if i > 0 { assert t[i - 1] == sep && t[i] == sep; }
    }
    if Adjacent(t, sep, sep) {
      var i :| 0 <= i < |t| - 1 && t[i] == sep && t[i + 1] == sep;
      assert s[i + 1] == sep && s[i + 2] == sep;
    }
  }
}
